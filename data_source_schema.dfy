/** The data formats the registrar knows (src/data_source/schema.rs). */
module DataSourceSchema {
  datatype DataSourceFormat = CSV | JSON | NdJson(fileExtension: string) | TSV | XLSX
}
