/** src/config/export.rs: sink configurations built from src/plan.rs export tools. */
module ConfigExport {
  import opened Base
  import Plan

  datatype CsvExportConfig = CsvExportConfig(path: string, overwrite: bool)
  datatype JsonExportConfig = JsonExportConfig(path: string, overwrite: bool)
  datatype ParquetExportConfig = ParquetExportConfig(path: string, overwrite: bool)

  /** `CsvExportConfig::new`: overwrite only when the plan asks for it. */
  function NewCsvExportConfig(c: Plan.ExportCsv): (r: CsvExportConfig)
    ensures r.path == c.path
    ensures r.overwrite <==> c.overwrite == Some(true)
  {
    CsvExportConfig(c.path, c.overwrite.UnwrapOr(false))
  }

  /** `JsonExportConfig::new`: overwrite only when the plan asks for it. */
  function NewJsonExportConfig(c: Plan.ExportJson): (r: JsonExportConfig)
    ensures r.path == c.path
    ensures r.overwrite <==> c.overwrite == Some(true)
  {
    JsonExportConfig(c.path, c.overwrite.UnwrapOr(false))
  }

  /** `ParquetExportConfig::new`: overwrite only when the plan asks for it. */
  function NewParquetExportConfig(c: Plan.ExportParquet): (r: ParquetExportConfig)
    ensures r.path == c.path
    ensures r.overwrite <==> c.overwrite == Some(true)
  {
    ParquetExportConfig(c.path, c.overwrite.UnwrapOr(false))
  }
}
