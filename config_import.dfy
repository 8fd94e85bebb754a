/** src/config/import.rs: source configurations built from src/plan.rs import tools. */
module ConfigImport {
  import opened Base
  import E = Engine
  import Plan

  /** The byte `b','`. */
  const Comma: E.uint8 := 0x2C

  datatype CsvImportConfig = CsvImportConfig(
    path: string, header: bool, delimiter: E.uint8, sql: Option<Plan.Sql>,
    limit: Option<nat>, fields: Option<seq<E.Field>>)

  datatype AvroImportConfig = AvroImportConfig(path: string, sql: Option<Plan.Sql>, limit: Option<nat>)

  datatype ParquetImportConfig = ParquetImportConfig(path: string, sql: Option<Plan.Sql>, limit: Option<nat>)

  /** `Field::new` on one schema entry: its column, its Arrow type, nullable unless it says otherwise. */
  function ToField(f: Plan.SchemaField): (r: E.Field)
    ensures r.name == f.column
    ensures Plan.FromDataType(r.dataType) == Some(f.variant)
    ensures r.nullable <==> f.nullable != Some(false)
  {
    E.Field(f.column, Plan.ToDataType(f.variant), f.nullable.UnwrapOr(true))
  }

  /** The schema mapped field by field (`iter().map(..).collect()`). */
  function ToFields(schema: seq<Plan.SchemaField>): (r: seq<E.Field>)
    ensures |r| == |schema|
    ensures forall i :: 0 <= i < |schema| ==> r[i] == ToField(schema[i])
  {
    seq(|schema|, i requires 0 <= i < |schema| => ToField(schema[i]))
  }

  /** `CsvImportConfig::new`. */
  function NewCsvImportConfig(c: Plan.ImportCsv): (r: CsvImportConfig)
    ensures r.path == c.path && r.sql == c.sql && r.limit == c.limit
    // no header unless the plan says there is one; ',' unless the plan names a delimiter
    ensures r.header <==> c.header == Some(true)
    ensures r.delimiter == if c.delimiter.Some? then c.delimiter.value else Comma
    // a field list exactly when there is a schema, one field per entry in order
    ensures r.fields.None? <==> c.schema.None?
    ensures c.schema.Some? ==>
      |r.fields.value| == |c.schema.value| &&
      forall i :: 0 <= i < |c.schema.value| ==> r.fields.value[i] == ToField(c.schema.value[i])
  {
    var fields := if c.schema.Some? then Some(ToFields(c.schema.value)) else None;
    CsvImportConfig(c.path, c.header.UnwrapOr(false), c.delimiter.UnwrapOr(Comma), c.sql, c.limit, fields)
  }

  /** `AvroImportConfig::new`: copies path, sql and limit. */
  function NewAvroImportConfig(c: Plan.ImportAvro): (r: AvroImportConfig)
    ensures r.path == c.path && r.sql == c.sql && r.limit == c.limit
  {
    AvroImportConfig(c.path, c.sql, c.limit)
  }

  /** `ParquetImportConfig::new`: copies path, sql and limit. */
  function NewParquetImportConfig(c: Plan.ImportParquet): (r: ParquetImportConfig)
    ensures r.path == c.path && r.sql == c.sql && r.limit == c.limit
  {
    ParquetImportConfig(c.path, c.sql, c.limit)
  }
}
