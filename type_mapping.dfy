/**
 * Type inference for result columns (the pure part of src/bridge/statement.cpp):
 * a runtime type tag or a declared type string becomes an Arrow type, and a
 * column's tag and owning table become its Flight SQL metadata.
 */
module TypeMapping {
  import opened ArrowStatus
  import opened Sqlite
  import opened ArrowTypes

  /** column_to_arrow_datatype: the Arrow type of a runtime type tag; it never fails. */
  function ColumnToArrowType(tag: int): (t: DataType)
    ensures tag == SQLITE_INTEGER <==> t == Int64
    ensures tag == SQLITE_FLOAT <==> t == Float64
    ensures tag == SQLITE_BLOB <==> t == Binary
    ensures tag == SQLITE_TEXT <==> t == Utf8
    ensures !t.DenseUnion?
  {
    if tag == SQLITE_INTEGER then Int64
    else if tag == SQLITE_FLOAT then Float64
    else if tag == SQLITE_BLOB then Binary
    else if tag == SQLITE_TEXT then Utf8
    else NullType
  }

  // Case-insensitive comparison in the "C" locale: only ASCII letters fold.

  function Lower(c: char): char {
    if 'A' <= c <= 'Z' then (c as int + 32) as char else c
  }

  function Fold(s: string): (f: string)
    ensures |f| == |s|
  {
    seq(|s|, i requires 0 <= i < |s| => Lower(s[i]))
  }

  /** boost::iequals */
  predicate IEquals(s: string, t: string) {
    Fold(s) == Fold(t)
  }

  /** boost::istarts_with */
  predicate IStartsWith(s: string, prefix: string) {
    |prefix| <= |s| && Fold(s[..|prefix|]) == Fold(prefix)
  }

  /** The declared types that name an Arrow type, and that type. */
  function KnownDeclaredType(s: string): Option<DataType> {
    if IEquals(s, "int") || IEquals(s, "integer") then Some(Int64)
    else if IEquals(s, "REAL") then Some(Float64)
    else if IEquals(s, "BLOB") then Some(Binary)
    else if IEquals(s, "TEXT") || IEquals(s, "DATE") || IStartsWith(s, "char") || IStartsWith(s, "varchar") then Some(Utf8)
    else None
  }

  /**
   * sqlite_to_arrow_datatype: a declared type (None for a null pointer) to an
   * Arrow type; a null or empty declaration gives the null type, an
   * unrecognised one an Invalid status naming it.
   */
  function DeclaredType(decl: Option<string>): (r: Result<DataType>)
    ensures decl == None || decl == Some("") ==> r == Ok(NullType)
    ensures decl.Some? && decl.value != "" ==>
      (r.Ok? <==> KnownDeclaredType(decl.value).Some?)
    ensures r.Ok? && decl.Some? && decl.value != "" ==> r.value in {Int64, Float64, Binary, Utf8}
    ensures r.Err? ==> decl.Some? && r.status == Invalid("Invalid SQLite type: " + decl.value)
  {
    match decl
    case None => Ok(NullType)
    case Some(s) =>
      if |s| == 0 then Ok(NullType)
      else match KnownDeclaredType(s)
        case Some(t) => Ok(t)
        case None => Err(Invalid("Invalid SQLite type: " + s))
  }

  /**
   * get_unknown_dense_union: the type of a column with neither a runtime
   * type nor a declared type; one alternative for each non-null runtime type.
   */
  function UnknownDenseUnion(): (t: DataType)
    ensures t.DenseUnion? && |t.children| == 4
    ensures forall k :: 0 <= k < 4 ==> t.children[k].childType != NullType && !t.children[k].childType.DenseUnion?
  {
    DenseUnion([
      UnionChild("string", Utf8),
      UnionChild("bytes", Binary),
      UnionChild("bigint", Int64),
      UnionChild("double", Float64)])
  }

  /** The union has one alternative for each non-null runtime type, and nothing else. */
  lemma UnionCoversRuntimeTypes(tag: int)
    requires ColumnToArrowType(tag) != NullType
    ensures exists k :: 0 <= k < 4 && UnknownDenseUnion().children[k].childType == ColumnToArrowType(tag)
  {
    var u := UnknownDenseUnion();
    if tag == SQLITE_TEXT { assert u.children[0].childType == Utf8; }
    else if tag == SQLITE_BLOB { assert u.children[1].childType == Binary; }
    else if tag == SQLITE_INTEGER { assert u.children[2].childType == Int64; }
    else { assert u.children[3].childType == Float64; }
  }

  /** get_precision */
  function Precision(tag: int): int {
    if tag == SQLITE_INTEGER then 10 else if tag == SQLITE_FLOAT then 15 else 0
  }

  /**
   * build_column_meta: scale 15, neither auto-increment nor read-only; the
   * owning table when known, and then a precision unless the runtime tag is
   * TEXT or BLOB.
   */
  function BuildColumnMeta(tag: int, table: Option<string>): (m: ColumnMetadata)
    ensures m.scale == 15 && !m.isAutoIncrement && !m.isReadOnly
    ensures m.tableName == table
    ensures table == None ==> m.precision == None
    ensures table != None && (tag == SQLITE_TEXT || tag == SQLITE_BLOB) ==> m.precision == None
    ensures table != None && tag == SQLITE_INTEGER ==> m.precision == Some(10)
    ensures table != None && tag == SQLITE_FLOAT ==> m.precision == Some(15)
    ensures table != None && tag !in {SQLITE_TEXT, SQLITE_BLOB, SQLITE_INTEGER, SQLITE_FLOAT} ==> m.precision == Some(0)
  {
    var base := ColumnMetadata(15, false, false, None, None);
    if table == None then base
    else if tag == SQLITE_TEXT || tag == SQLITE_BLOB then base.(tableName := table)
    else base.(tableName := table, precision := Some(Precision(tag)))
  }

  /** What get_schema reads about column i: its name, runtime tag, declared type and table. */
  datatype ColumnView = ColumnView(name: string, tag: int, declType: Option<string>, table: Option<string>)

  /** The field get_schema builds for one column. */
  function FieldFor(c: ColumnView): Result<Field> {
    var meta := BuildColumnMeta(c.tag, c.table);
    var runtime := ColumnToArrowType(c.tag);
    if !runtime.NullType? then Ok(Field(c.name, runtime, meta))
    else if c.declType == None then Ok(Field(c.name, UnknownDenseUnion(), meta))
    else match DeclaredType(c.declType)
      case Err(s) => Err(s)
      case Ok(t) => Ok(Field(c.name, t, meta))
  }

  /**
   * get_schema over a list of columns: one field per column in column order,
   * or the error of the first column whose declared type is rejected.
   */
  function DeriveSchema(cols: seq<ColumnView>): (r: Result<Schema>)
    ensures r.Ok? ==> |r.value| == |cols|
    ensures r.Ok? ==> forall i :: 0 <= i < |cols| ==> FieldFor(cols[i]) == Ok(r.value[i])
    ensures r.Ok? <==> forall i :: 0 <= i < |cols| ==> FieldFor(cols[i]).Ok?
    ensures r.Err? ==>
      exists i :: (0 <= i < |cols| && FieldFor(cols[i]) == Err(r.status) &&
                   forall j :: 0 <= j < i ==> FieldFor(cols[j]).Ok?)
  {
    if |cols| == 0 then Ok([])
    else
      var prefix := cols[..|cols| - 1];
      assert forall i :: 0 <= i < |prefix| ==> prefix[i] == cols[i];
      match DeriveSchema(prefix)
      case Err(s) =>
        Err(s)
      case Ok(fs) =>
        match FieldFor(cols[|cols| - 1])
        case Err(s) =>
          assert FieldFor(cols[|cols| - 1]) == Err(s);
          Err(s)
        case Ok(f) => Ok(fs + [f])
  }

  // ---------------------------------------------------------------------------
  // Properties of the mapping

  /**
   * The declared type can change a field's type but nothing else: whatever
   * the declaration, a field keeps the column's name and the metadata of its
   * runtime tag and table.
   */
  lemma DeclarationChangesOnlyTheType(c: ColumnView, d: Option<string>)
    requires FieldFor(c).Ok? && FieldFor(c.(declType := d)).Ok?
    ensures FieldFor(c).value.name == FieldFor(c.(declType := d)).value.name == c.name
    ensures FieldFor(c).value.metadata == FieldFor(c.(declType := d)).value.metadata == BuildColumnMeta(c.tag, c.table)
  {
  }

  /** The declared type is consulted only when the runtime tag maps to the null type. */
  lemma RuntimeTypeWins(c: ColumnView, d: Option<string>)
    requires ColumnToArrowType(c.tag) != NullType
    ensures FieldFor(c) == FieldFor(c.(declType := d))
    ensures FieldFor(c) == Ok(Field(c.name, ColumnToArrowType(c.tag), BuildColumnMeta(c.tag, c.table)))
  {
  }

  /** Precision follows the runtime tag, not the resolved type: a NULL cell in an "int" column still gets precision 0. */
  lemma PrecisionFollowsRuntimeTag(name: string, table: string)
    ensures var f := FieldFor(ColumnView(name, SQLITE_NULL, Some("int"), Some(table)));
      f.Ok? && f.value.fieldType == Int64 && f.value.metadata.precision == Some(0)
  {
    assert KnownDeclaredType("int") == Some(Int64) by {
      assert Fold("int") == "int";
    }
  }

  /** SQLite's own name for the storage class of a runtime type tag. */
  function StorageClassName(tag: int): string {
    if tag == SQLITE_INTEGER then "INTEGER"
    else if tag == SQLITE_FLOAT then "REAL"
    else if tag == SQLITE_BLOB then "BLOB"
    else "TEXT"
  }

  /** Each non-null runtime type is what the name of its storage class declares. */
  lemma RuntimeAndDeclaredAgree(tag: int)
    requires tag in {SQLITE_INTEGER, SQLITE_FLOAT, SQLITE_BLOB, SQLITE_TEXT}
    ensures DeclaredType(Some(StorageClassName(tag))) == Ok(ColumnToArrowType(tag))
  {
    var n := StorageClassName(tag);
    if tag == SQLITE_INTEGER {
      assert Fold(n) == "integer" && Fold("integer") == "integer";
      assert Fold("int") == "int";
    } else if tag == SQLITE_FLOAT {
      assert Fold(n) == "real" && Fold("REAL") == "real";
      assert Fold("int") == "int" && Fold("integer") == "integer";
    } else if tag == SQLITE_BLOB {
      assert Fold(n) == "blob" && Fold("BLOB") == "blob";
      assert Fold("int") == "int" && Fold("integer") == "integer" && Fold("REAL") == "real";
    } else {
      assert Fold(n) == "text" && Fold("TEXT") == "text";
      assert Fold("int") == "int" && Fold("integer") == "integer" && Fold("REAL") == "real" && Fold("BLOB") == "blob";
    }
  }

  lemma FoldPrefix(s: string, k: nat)
    requires k <= |s|
    ensures Fold(s[..k]) == Fold(s)[..k]
  {
  }

  /** Declared-type matching ignores ASCII case: strings that fold alike map alike. */
  lemma DeclaredTypeIgnoresCase(s: string, t: string)
    requires Fold(s) == Fold(t)
    ensures KnownDeclaredType(s) == KnownDeclaredType(t)
    ensures DeclaredType(Some(s)).Ok? <==> DeclaredType(Some(t)).Ok?
    ensures DeclaredType(Some(s)).Ok? ==> DeclaredType(Some(s)) == DeclaredType(Some(t))
  {
    PrefixMatchIgnoresCase(s, t, "char");
    PrefixMatchIgnoresCase(s, t, "varchar");
  }

  lemma PrefixMatchIgnoresCase(s: string, t: string, prefix: string)
    requires Fold(s) == Fold(t)
    ensures IStartsWith(s, prefix) == IStartsWith(t, prefix)
  {
    if |prefix| <= |s| {
      FoldPrefix(s, |prefix|);
      FoldPrefix(t, |prefix|);
    }
  }

  // One lemma per rule of the declared-type table, for every spelling.

  /** "int" and "integer", in any case, are int64. */
  lemma DeclaredTypeIntegerNames(s: string)
    requires IEquals(s, "int") || IEquals(s, "integer")
    ensures DeclaredType(Some(s)) == Ok(Int64)
  {
    assert Fold("int") == "int" && Fold("integer") == "integer";
  }

  /** "real", in any case, is float64. */
  lemma DeclaredTypeRealName(s: string)
    requires IEquals(s, "REAL")
    ensures DeclaredType(Some(s)) == Ok(Float64)
  {
    assert Fold("REAL") == "real" && Fold("int") == "int" && Fold("integer") == "integer";
  }

  /** "blob", in any case, is binary. */
  lemma DeclaredTypeBlobName(s: string)
    requires IEquals(s, "BLOB")
    ensures DeclaredType(Some(s)) == Ok(Binary)
  {
    assert Fold("BLOB") == "blob" && Fold("REAL") == "real" && Fold("int") == "int" && Fold("integer") == "integer";
  }

  /** "text" and "date", in any case, are utf8. */
  lemma DeclaredTypeTextNames(s: string)
    requires IEquals(s, "TEXT") || IEquals(s, "DATE")
    ensures DeclaredType(Some(s)) == Ok(Utf8)
  {
    assert Fold("TEXT") == "text" && Fold("DATE") == "date";
    assert Fold("BLOB") == "blob" && Fold("REAL") == "real" && Fold("int") == "int" && Fold("integer") == "integer";
  }

  /** Every declaration that starts with "char" or "varchar", in any case and whatever follows, is utf8. */
  lemma DeclaredTypeCharPrefixes(s: string)
    requires IStartsWith(s, "char") || IStartsWith(s, "varchar")
    ensures DeclaredType(Some(s)) == Ok(Utf8)
  {
    var k := if IStartsWith(s, "char") then 4 else 7;
    FoldPrefix(s, k);
    assert Fold("char")[0] == 'c' && Fold("varchar")[0] == 'v';
    assert Fold(s)[0] == Fold(s)[..k][0];
    assert Fold("int")[0] == 'i' && Fold("integer")[0] == 'i' && Fold("REAL")[0] == 'r' && Fold("BLOB")[0] == 'b';
  }

  /** Declared-type matching ignores case. */
  lemma DeclaredTypeExampleInteger()
    ensures DeclaredType(Some("INTEGER")) == Ok(Int64)
  {
    assert Fold("INTEGER") == "integer";
  }

  /** A char declaration with a length suffix is text. */
  lemma DeclaredTypeExampleChar()
    ensures DeclaredType(Some("char(6)")) == Ok(Utf8)
  {
    assert Fold("char(6)"[..4]) == "char";
    assert Fold("char(6)")[0] == 'c' && Fold("integer")[0] == 'i';
  }

  /** A declared type outside the list is rejected by name. */
  lemma DeclaredTypeExampleBigint()
    ensures DeclaredType(Some("bigint")) == Err(Invalid("Invalid SQLite type: bigint"))
  {
    assert Fold("bigint")[0] == 'b' && Fold("bigint"[..4])[0] == 'b';
    assert Fold("bigint") != Fold("int") && Fold("bigint") != Fold("integer");
  }
}
