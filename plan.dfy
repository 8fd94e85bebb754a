/**
 * The older plan document of src/plan.rs, the one src/tool.rs and src/config
 * (data, import and export) read: seven tool kinds, owned strings, and a schema
 * type list without `date`.
 */
module Plan {
  import opened Base
  import E = Engine

  datatype InputSide = Left | Right

  /** `impl Default for InputSide`. */
  const DefaultInputSide: InputSide := InputSide.Left

  datatype Link = Link(src: string, dst: string, input: InputSide)

  /** A link as decoded: `#[serde(default)]` fills a missing `input` with the default side. */
  function DecodeLink(src: string, dst: string, input: Option<InputSide>): (l: Link)
    ensures l.src == src && l.dst == dst
    ensures input.None? ==> l.input == InputSide.Left
    ensures input.Some? ==> l.input == input.value
  {
    Link(src, dst, input.UnwrapOr(DefaultInputSide))
  }

  datatype SchemaDataType =
    | Utf8 | Bool | Null | Ts | Ms | Ns
    | I8 | I16 | I32 | I64
    | U8 | U16 | U32 | U64
    | F16 | F32 | F64

  /** `Into<DataType> for SchemaDataType`. */
  function ToDataType(t: SchemaDataType): (r: E.DataType)
    // each tag has its own Arrow type, and no tag gives `Date32`
    ensures FromDataType(r) == Some(t)
    ensures r != E.Date32
    ensures r.Timestamp? ==> r.timezone.None?
  {
    match t
    case Ts => E.Timestamp(E.Second, None)
    case Ms => E.Timestamp(E.Millisecond, None)
    case Ns => E.Timestamp(E.Nanosecond, None)
    case Utf8 => E.Utf8
    case Bool => E.Boolean
    case Null => E.Null
    case I8 => E.Int8
    case I16 => E.Int16
    case I32 => E.Int32
    case I64 => E.Int64
    case U8 => E.UInt8
    case U16 => E.UInt16
    case U32 => E.UInt32
    case U64 => E.UInt64
    case F16 => E.Float16
    case F32 => E.Float32
    case F64 => E.Float64
  }

  /** The schema tag an Arrow type comes from, if any. */
  function FromDataType(d: E.DataType): Option<SchemaDataType> {
    match d
    case Timestamp(unit, tz) =>
      if tz.Some? then None
      else if unit == E.Second then Some(Ts)
      else if unit == E.Millisecond then Some(Ms)
      else if unit == E.Nanosecond then Some(Ns)
      else None
    case Utf8 => Some(Utf8)
    case Boolean => Some(Bool)
    case Null => Some(Null)
    case Int8 => Some(I8)
    case Int16 => Some(I16)
    case Int32 => Some(I32)
    case Int64 => Some(I64)
    case UInt8 => Some(U8)
    case UInt16 => Some(U16)
    case UInt32 => Some(U32)
    case UInt64 => Some(U64)
    case Float16 => Some(F16)
    case Float32 => Some(F32)
    case Float64 => Some(F64)
    case Date32 => None
  }

  datatype SchemaField = SchemaField(column: string, nullable: Option<bool>, variant: SchemaDataType)

  datatype Sql = Sql(stmt: string, table: string)

  datatype ImportCsv = ImportCsv(
    id: string, path: string, limit: Option<nat>, header: Option<bool>,
    delimiter: Option<E.uint8>, schema: Option<seq<SchemaField>>, sql: Option<Sql>)

  datatype ImportAvro = ImportAvro(id: string, path: string, limit: Option<nat>, sql: Option<Sql>)

  datatype ImportParquet = ImportParquet(id: string, path: string, limit: Option<nat>, sql: Option<Sql>)

  datatype Import = CsvImport(csv: ImportCsv) | AvroImport(avro: ImportAvro) | ParquetImport(parquet: ImportParquet) {
    /** `Import::id`. */
    function Id(): string {
      match this
      case CsvImport(t) => t.id
      case AvroImport(t) => t.id
      case ParquetImport(t) => t.id
    }
  }

  datatype ExportCsv = ExportCsv(id: string, path: string, overwrite: Option<bool>)
  datatype ExportJson = ExportJson(id: string, path: string, overwrite: Option<bool>)
  datatype ExportParquet = ExportParquet(id: string, path: string, overwrite: Option<bool>)

  datatype Export = CsvExport(csv: ExportCsv) | JsonExport(json: ExportJson) | ParquetExport(parquet: ExportParquet) {
    /** `Export::id`. */
    function Id(): string {
      match this
      case CsvExport(t) => t.id
      case JsonExport(t) => t.id
      case ParquetExport(t) => t.id
    }
  }

  datatype JoinType = Inner | Left | Right | Full | LeftSemi | RightSemi | LeftAnti | RightAnti

  datatype Generic = Generic(id: string)
  datatype Join = Join(id: string, lt: seq<string>, rt: seq<string>, variant: JoinType)
  datatype Select = Select(id: string, columns: seq<string>, aliases: map<string, string>)
  datatype Union = Union(id: string, distinct: Option<bool>)

  datatype Tool =
    | ImportTool(imp: Import)
    | ExportTool(exp: Export)
    | DifferenceTool(difference: Generic)
    | IntersectTool(intersect: Generic)
    | JoinTool(join: Join)
    | SelectTool(select: Select)
    | UnionTool(union: Union)
  {
    /** `Tool::id`: the id of the tool's own configuration. */
    function Id(): (r: string)
      ensures ImportTool? ==> r == imp.Id()
      ensures ExportTool? ==> r == exp.Id()
    {
      match this
      case ImportTool(t) => t.Id()
      case ExportTool(t) => t.Id()
      case DifferenceTool(t) => t.id
      case IntersectTool(t) => t.id
      case JoinTool(t) => t.id
      case SelectTool(t) => t.id
      case UnionTool(t) => t.id
    }
  }

  datatype Plan = Plan(id: string, name: string, links: seq<Link>, tools: seq<Tool>)
}
