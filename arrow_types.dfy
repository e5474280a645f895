/** The Arrow types, fields and column metadata the bridge produces. */
module ArrowTypes {
  import opened ArrowStatus

  /** The Arrow data types that schema derivation can produce. */
  datatype DataType =
    | NullType
    | Int64
    | Float64
    | Binary
    | Utf8
    | DenseUnion(children: seq<UnionChild>)

  /** One named alternative of a dense union. */
  datatype UnionChild = UnionChild(name: string, childType: DataType)

  /** Flight SQL column metadata as built by ColumnMetadataBuilder. */
  datatype ColumnMetadata = ColumnMetadata(
    scale: int,
    isAutoIncrement: bool,
    isReadOnly: bool,
    tableName: Option<string>,
    precision: Option<int>)

  datatype Field = Field(name: string, fieldType: DataType, metadata: ColumnMetadata)

  type Schema = seq<Field>

  /** DataType::name(), used in error messages. */
  function TypeName(t: DataType): string {
    match t
    case NullType => "null"
    case Int64 => "int64"
    case Float64 => "double"
    case Binary => "binary"
    case Utf8 => "utf8"
    case DenseUnion(_) => "dense_union"
  }
}
