/**
 * arrow_sql_bridge::statement (src/bridge/statement.cpp): owns one prepared
 * statement, derives its schema, steps and resets its cursor, and finalizes
 * the handle when destroyed.
 */
module Statements {
  import opened ArrowStatus
  import opened Sqlite
  import opened ArrowTypes
  import opened TypeMapping

  /** The error text of step and reset. */
  function RuntimeErrorMessage(errmsg: string): string {
    "A SQLite runtime error has occurred: " + errmsg
  }

  /**
   * The wrapper around sqlite3_step and sqlite3_reset: SQLITE_ERROR becomes
   * an ExecutionError, every other code is passed through unchanged.
   */
  function CheckCode(code: int, errmsg: string): (r: Result<int>)
    ensures r.Err? <==> code == SQLITE_ERROR
    ensures r.Ok? ==> r.value == code
    ensures r.Err? ==> r.status == ExecutionError(RuntimeErrorMessage(errmsg))
  {
    if code == SQLITE_ERROR then Err(ExecutionError(RuntimeErrorMessage(errmsg))) else Ok(code)
  }

  /** The message of a failed prepare, with the cleanup failure appended when finalize failed. */
  function PrepareFailureMessage(errmsg: string, finalizeCode: int): string {
    var msg := "Can't prepare statement: " + errmsg;
    if finalizeCode != SQLITE_OK then msg + "; Failed to cleanup SQLite statement: " + errmsg else msg
  }

  /** What get_schema reads about every column at the cursor's current position. */
  function ColumnViews(e: Engine): (views: seq<ColumnView>)
    ensures |views| == |e.program.columns|
    ensures forall i :: 0 <= i < |views| ==>
      views[i] == ColumnView(e.program.columns[i].name, TypeOf(CurrentCell(e, i)),
                             e.program.columns[i].declType, e.program.columns[i].tableName)
  {
    var cols := e.program.columns;
    seq(|cols|, i requires 0 <= i < |cols| =>
      ColumnView(cols[i].name, TypeOf(CurrentCell(e, i)), cols[i].declType, cols[i].tableName))
  }

  /** The outcome of sqlite3_prepare_v2: its return code, the handle it produced (if any) and the connection's error message. */
  datatype Prepared = Prepared(rc: int, handle: NativeStmt?, errmsg: string)

  class Statement {
    const native: NativeStmt

    constructor (native: NativeStmt)
      ensures this.native == native
    {
      this.native := native;
    }

    /**
     * statement::make: a statement around the prepared handle; on a failed
     * prepare an Invalid status, after finalizing the handle if there is one.
     */
    static method Make(p: Prepared) returns (r: Result<Statement>)
      requires p.rc == SQLITE_OK ==> p.handle != null
      requires p.handle != null ==> !p.handle.finalized
      modifies p.handle
      ensures r.Ok? <==> p.rc == SQLITE_OK
      ensures r.Ok? ==> fresh(r.value) && r.value.native == p.handle
      ensures r.Ok? ==> !p.handle.finalized && p.handle.State() == old(p.handle.State())
      ensures r.Err? && p.handle != null ==>
        p.handle.finalized && p.handle.State() == old(p.handle.State()) &&
        r.status == Invalid(PrepareFailureMessage(p.errmsg, ResetEngine(old(p.handle.State())).1))
      ensures r.Err? && p.handle == null ==> r.status == Invalid(PrepareFailureMessage(p.errmsg, SQLITE_OK))
    {
      if p.rc != SQLITE_OK {
        var finalizeCode := SQLITE_OK;
        if p.handle != null {
          finalizeCode := p.handle.Finalize();
        }
        return Err(Invalid(PrepareFailureMessage(p.errmsg, finalizeCode)));
      }
      var s := new Statement(p.handle);
      r := Ok(s);
    }

    /** statement::get_schema: one field per result column, in column order. */
    method GetSchema() returns (r: Result<Schema>)
      ensures r == DeriveSchema(ColumnViews(native.State()))
    {
      ghost var views := ColumnViews(native.State());
      var fields: seq<Field> := [];
      var count := native.ColumnCount();
      var i := 0;
      while i < count
        invariant 0 <= i <= count
        invariant DeriveSchema(views[..i]) == Ok(fields)
      {
        var name := native.ColumnName(i);
        var tag := native.ColumnType(i);
        var table := native.ColumnTableName(i);
        assert views[..i + 1] == views[..i] + [views[i]];
        DeriveSchemaSnoc(views[..i], views[i]);
        var dataType := ColumnToArrowType(tag);
        if dataType.NullType? {
          var decl := native.ColumnDecltype(i);
          if decl != None {
            var declared := DeclaredType(decl);
            if declared.Err? {
              DeriveSchemaErrorPersists(views, i + 1);
              return Err(declared.status);
            }
            dataType := declared.value;
          } else {
            dataType := UnknownDenseUnion();
          }
        }
        var meta := BuildColumnMeta(tag, table);
        fields := fields + [Field(name, dataType, meta)];
        i := i + 1;
      }
      assert views[..i] == views;
      r := Ok(fields);
    }

    /** statement::step */
    method Step() returns (r: Result<int>)
      requires !native.finalized
      modifies native
      ensures native.State() == StepEngine(old(native.State())).0 && !native.finalized
      ensures r == CheckCode(StepEngine(old(native.State())).1, native.program.errmsg)
    {
      var code := native.Step();
      r := CheckCode(code, native.program.errmsg);
    }

    /** statement::reset */
    method Reset() returns (r: Result<int>)
      requires !native.finalized
      modifies native
      ensures native.State() == ResetEngine(old(native.State())).0 && !native.finalized
      ensures r == CheckCode(ResetEngine(old(native.State())).1, native.program.errmsg)
    {
      var code := native.Reset();
      r := CheckCode(code, native.program.errmsg);
    }

    /** The destructor: finalizes the handle; it can run only once, and nothing steps the handle afterwards. */
    method Destroy()
      requires !native.finalized
      modifies native
      ensures native.finalized && native.State() == old(native.State())
    {
      var _ := native.Finalize();
    }
  }

  lemma DeriveSchemaSnoc(cols: seq<ColumnView>, c: ColumnView)
    ensures DeriveSchema(cols + [c]) ==
      match DeriveSchema(cols)
      case Err(s) => Err(s)
      case Ok(fs) => (match FieldFor(c) case Err(s) => Err(s) case Ok(f) => Ok(fs + [f]))
  {
    assert (cols + [c])[..|cols|] == cols;
  }

  /** Once a prefix of the columns fails, the whole schema fails with the same status: both fail at the first rejected column. */
  lemma DeriveSchemaErrorPersists(cols: seq<ColumnView>, k: nat)
    requires k <= |cols|
    ensures DeriveSchema(cols[..k]).Err? ==> DeriveSchema(cols) == DeriveSchema(cols[..k])
  {
    var prefix := DeriveSchema(cols[..k]);
    if prefix.Err? {
      var i :| 0 <= i < k && FieldFor(cols[..k][i]) == Err(prefix.status) &&
               forall j :: 0 <= j < i ==> FieldFor(cols[..k][j]).Ok?;
      assert FieldFor(cols[i]) == Err(prefix.status);
      assert forall j :: 0 <= j < i ==> FieldFor(cols[j]).Ok? by {
        forall j | 0 <= j < i ensures FieldFor(cols[j]).Ok? {
          assert cols[..k][j] == cols[j];
        }
      }
      var whole := DeriveSchema(cols);
      var i' :| 0 <= i' < |cols| && FieldFor(cols[i']) == Err(whole.status) &&
                forall j :: 0 <= j < i' ==> FieldFor(cols[j]).Ok?;
      assert i' == i;
    }
  }

  /** Right after a reset no row is current, so every runtime tag is NULL and the schema comes from the declared types alone. */
  lemma SchemaAfterResetUsesDeclaredTypes(e: Engine)
    requires e.stepped == 0
    ensures var r := DeriveSchema(ColumnViews(e));
      r.Ok? ==> forall i :: 0 <= i < |r.value| ==>
        var c := e.program.columns[i];
        && r.value[i].name == c.name
        && r.value[i].fieldType == (if c.declType == None then UnknownDenseUnion() else DeclaredType(c.declType).value)
        && r.value[i].metadata.tableName == c.tableName
        && r.value[i].metadata.precision == (if c.tableName == None then None else Some(0))
  {
    var r := DeriveSchema(ColumnViews(e));
    if r.Ok? {
      forall i | 0 <= i < |r.value|
        ensures var c := e.program.columns[i];
          && r.value[i].name == c.name
          && r.value[i].fieldType == (if c.declType == None then UnknownDenseUnion() else DeclaredType(c.declType).value)
          && r.value[i].metadata.tableName == c.tableName
          && r.value[i].metadata.precision == (if c.tableName == None then None else Some(0))
      {
        assert !HasRow(e);
        assert ColumnViews(e)[i].tag == SQLITE_NULL;
        assert FieldFor(ColumnViews(e)[i]) == Ok(r.value[i]);
      }
    }
  }
}
