# easydb_server: table resolution, ingestion and query results in Dafny

easydb_server answers ad-hoc SQL over files. A query names its tables either
by a logical name registered in a SQLite catalog, or inline by a file path
such as `'data/sales.csv'`. For each request the server does the following:

- It parses the SQL and collects every table identifier. The walk covers
  FROM lists, joins, derived tables, CTEs, nested query bodies and
  subqueries in WHERE.
- It splits the identifiers by detected file format.
- Each inline path gets a `temp_<seconds>_<4 alphanumerics>` alias and a
  TEMP catalog row, and the path is replaced by the alias in the SQL text.
- It looks up every catalog row named by the bind list.
- It registers each row in a fresh session context:
  - a CSV, TSV or NDJSON listing table for text files;
  - an in-memory batch read from a spreadsheet, whose schema is inferred
    from the header row.
- The `/db/query` handler flattens the result batches into a header and
  rows of cell texts.
- A `CREATE TABLE … LOCATION '…'` statement becomes a persistent catalog
  row.

One module per source file:

| module | file | models |
|---|---|---|
| `HttpError` | `http_error.dfy` | the `Exception` type: its status, code and message, its `Display`, its constructors, and the `From` conversions of library errors |
| `SqlError` | `sql_error.dfy` | the SQL syntax error and its conversion |
| `Utils` | `utils.dfy` | platform directories, elapsed-time text, random strings, the relative-path test |
| `DataSourceSchema`, `DataSourceUtils` | `data_source_schema.dfy`, `data_source_utils.dfy` | the format enumeration and `get_format` |
| `SqlAst`, `Parse` | `sql_ast.dfy`, `parse.dfy` | the statement tree, table-name extraction and `get_sql_type` |
| `Excel` | `excel.dfy` | spreadsheet ingestion into a record batch |
| `Catalog` | `catalog.dfy` | the catalog table: inserts checked for unknown columns and for the UNIQUE `table_ref`, and the `IN (…)` lookup |
| `Context` | `context.dfy` | `register_table` and `register_listing_table` |
| `Controllers` | `controllers.dfy` | result flattening and the DDL branch of `/db/query` |
| `Strings`, `Wrappers` | `strings.dfy`, `wrappers.dfy` | string helpers, `Option` and `Result` |

Outside inputs are parameters:

- the parser's output, as `Result<seq<Statement>, string>`;
- the clock and the random generator, as `clock: nat -> nat` and
  `rng: nat -> nat`;
- the `DATA_DIR` variable and the platform;
- the workbook files, as `WorkbookStore`: glob expansion and workbook
  opening;
- the query engine's answer when a listing table is registered
  (`Environment.listingError`).

The catalog is a `Catalog` class whose `rows` map is keyed by `table_ref`,
and the session context is a `SessionContext` class whose `tables` map is
keyed by table name. Each method that changes one of them is proved equal
to a function of the old state, and the properties are proved about those
functions.

A Rust panic (`unwrap` on `None`, `unimplemented!`) is the `Panicked` case
of `Excel.Failure`. A returned error is its `Raised` case.

Notes on the code as written:

- `get_format` recognises `.json` but not `.xlsx`, so a spreadsheet path is
  never detected, whether inline or stored in the catalog.
  `register_table`'s spreadsheet branch cannot be reached through it. It is
  modelled in `Context.RegisterFormat`, which takes the format as a
  parameter. The facts are
  `DataSourceUtils.SpreadsheetUndetected` and `Context.TableBinding`
  (a successful binding is always a listing table).
- The catalog lookup has no `ORDER BY`. The model binds rows in the
  first-occurrence order of the bind list, without duplicates.
- A TEMP row stores the path with every `'` removed, but the SQL text is
  rewritten using the path as parsed.
- A literal path gets one alias and one TEMP row per occurrence, not per
  distinct path. The first `replace` already rewrites every occurrence, so
  the later aliases are inserted and bound but never named in the SQL
  (see "## Findings"). `Context.ResolveNames` keeps this behaviour.
- `get_table_names` does not list tables in the order they appear in the
  SQL text. It lists a query's FROM tables, then its WHERE subqueries, then
  its CTE bodies after the main SELECT. It does not visit subqueries in the
  select list or in a JOIN's `ON` condition.

## Model

| member | source | states |
|---|---|---|
| HttpError.NewAttributes | src/response/http_error.rs:20-26 | the response code is always 1; the message and status are the ones given |
| HttpError.Attributes | src/response/http_error.rs:54-68 | 400, 404, 422 and 500 each correspond to exactly one kind of failure; the message is the failure's own, prefixed "File not found: " for a missing file |
| HttpError.AttributesInjective | src/response/http_error.rs:54-68 | different failures have different attributes |
| HttpError.ErrorResponseOf | src/response/http_error.rs:41-51 | the error response carries the attributes' status and message, with code 1 |
| HttpError.Display | src/response/http_error.rs:29-39 | the display text of each kind of failure |
| HttpError.InternalServerError | src/response/http_error.rs:74-78 | builds an InternalServer failure that responds 500 with the message |
| HttpError.BadRequestError | src/response/http_error.rs:80-84 | builds a BadRequest failure that responds 400 with the message |
| HttpError.FileNotFoundError | src/response/http_error.rs:86-90 | builds a FileNotFound failure that responds 404 with "File not found: " and the name |
| HttpError.UnprocessableEntityError | src/response/http_error.rs:92-96 | builds an UnprocessableEntity failure that responds 422 with the message |
| HttpError.FromForeign | src/response/http_error.rs:99-196 | every library error becomes a Bad Request carrying the library's text |
| SqlError.SqlSyntaxError | src/sql/sql_error.rs:13-18 | keeps the message and the SQL text |
| SqlError.Display | src/sql/sql_error.rs:6-9 | the text starts with "SQL syntax error found: ", ends with ", SQL: " and the statement, and has exactly the length of those parts |
| SqlError.DisplayRecoversMessage | src/sql/sql_error.rs:8 | the message can be cut back out of the display text |
| SqlError.DisplayInjectiveForSql | src/sql/sql_error.rs:8 | for the same statement, equal display texts mean equal errors |
| SqlError.ToException | src/sql/sql_error.rs:21-27 | a syntax error responds 400 with its display text |
| Utils.IsRelativePath | src/utils.rs:81-83 | a path is relative exactly when it does not start with `/` |
| Utils.DefaultDataDir | src/utils.rs:24-30 | the default data directory per platform, under the build-time HOME on macOS |
| Utils.TmpDir | src/utils.rs:32-38 | the scratch directory per platform |
| Utils.TimeDifference | src/utils.rs:85-98 | below one second the signed millisecond count with "ms"; otherwise the whole count of the finest of s and m whose count is below 60, or else of hours, uncapped |
| Utils.TimeBucketUnique | src/utils.rs:89-97 | at most one unit and count describe a duration |
| Utils.AlphanumericAt | src/utils.rs:103 | every symbol of the alphabet is an ASCII letter or digit |
| Utils.GenerateRandomString | src/utils.rs:100-106 | the string has the requested length, and each character is the alphabet symbol of its draw |
| Strings.TrimEndMatches | src/data_source/utils.rs:4 | the result is a prefix of the input that does not end with the trimmed character |
| Strings.TrimmedTailIsRun | src/data_source/utils.rs:4 | what trimming removes is a run of that character only |
| Strings.ReplaceAll | src/data_source/context.rs:123-128 | `str::replace`: a text that does not occur leaves the input unchanged |
| Strings.ReplaceFirstOccurrence | src/data_source/context.rs:128 | the leftmost occurrence becomes the replacement and the scan resumes after it, so every non-overlapping occurrence is replaced from left to right |
| Strings.DeleteChar | src/data_source/context.rs:123 | the deleted character no longer occurs |
| Strings.ReplaceCharIsDelete | src/data_source/context.rs:123 | replacing `'` by nothing deletes every `'` |
| Strings.ParseNatToString | src/data_source/context.rs:104-108 | the decimal text of the timestamp reads back as the same number |
| Strings.NatToStringInjective | src/data_source/context.rs:104-108 | different timestamps give different texts |
| DataSourceUtils.GetFormat | src/data_source/utils.rs:3-22 | after trailing quotes are trimmed, each known suffix gives its format; a format is found exactly when a known suffix is present; XLSX is never returned |
| DataSourceUtils.TrailingQuoteIgnored | src/data_source/utils.rs:4 | a trailing quote does not change the format |
| DataSourceUtils.UpperCaseUndetected | src/data_source/utils.rs:5-21 | suffixes are matched case-sensitively |
| DataSourceUtils.SpreadsheetUndetected | src/data_source/utils.rs:3-22 | `.xlsx` paths, with or without a sheet selector, have no format |
| DataSourceUtils.QuotedPathDetected | src/data_source/utils.rs:4-6 | a quoted CSV path is detected as CSV |
| DataSourceUtils.SeparatorEndUndetected | src/data_source/utils.rs:3-22 | a path ending in `/` has no format |
| DataSourceUtils.PrefixPreservesFormat | src/data_source/context.rs:39-44 | prefixing the data directory does not change the detected format |
| DataSourceUtils.SuffixDecidesFormat | src/data_source/utils.rs:3-22 | a name whose quote-trimmed form ends with one of the five suffixes is detected as exactly that suffix's format |
| DataSourceUtils.StoredKeepsSuffix | src/data_source/context.rs:123 | deleting quotes from a path keeps its quote-free suffix and leaves nothing to trim |
| DataSourceUtils.QuoteFreePathKeepsFormat | src/data_source/context.rs:123 | the TEMP row's quote-free path has the format of the identifier it came from |
| Parse.ParserFailure | src/sql/parse.rs:11-15 | a parser error becomes a Bad Request with the parser's text |
| Parse.ExtractFromQuery | src/sql/parse.rs:40-68 | appends the query's table names: the SELECT's first, then each CTE's, then a nested query body's |
| Parse.ExtractFromSelect | src/sql/parse.rs:43-53 | appends the FROM items' names in order, then those of the WHERE clause |
| Parse.ExtractFromCtes | src/sql/parse.rs:57-61 | appends each CTE's names in order |
| Parse.ExtractFromTableWithJoins | src/sql/parse.rs:72-81 | appends the relation's names, then each join's |
| Parse.ExtractFromJoin | src/sql/parse.rs:78-80 | appends the joined relation's names |
| Parse.ExtractFromTableFactor | src/sql/parse.rs:85-102 | a named table adds its name, a derived table adds its subquery's names, anything else adds nothing |
| Parse.ExtractFromExpr | src/sql/parse.rs:106-131 | a subquery, EXISTS or IN subquery adds the subquery's names; a binary operation adds the left side's names, then the right side's |
| Parse.TableNames | src/sql/parse.rs:17-36 | fails exactly when some statement is not a query, with the "Only supports Select syntax." syntax error; a parser error passes through; otherwise the names of all statements in order |
| Parse.GetTableNames | src/sql/parse.rs:17-36 | the statement loop computes `TableNames` |
| Parse.GetSqlType | src/sql/parse.rs:133-153 | an empty statement list is a syntax error; otherwise a query gives DML, CREATE TABLE gives DDL, and anything else gives Unprocessable Entity, each exactly |
| Parse.OnlyFirstStatementDecides | src/sql/parse.rs:142-150 | statements after the first never change the outcome |
| Parse.QueryNamesCount | src/sql/parse.rs:40-68 | one name per table reference in the query tree |
| Parse.SelectNamesCount | src/sql/parse.rs:43-53 | one name per table reference in a SELECT |
| Parse.FromNamesCount | src/sql/parse.rs:44-46 | one name per table reference in a FROM list |
| Parse.CteNamesCount | src/sql/parse.rs:57-61 | one name per table reference in the CTEs |
| Parse.JoinNamesCount | src/sql/parse.rs:78-80 | one name per table reference in the joins |
| Parse.JoinFactorNamesCount | src/sql/parse.rs:79 | one name per table reference in a join |
| Parse.FactorNamesCount | src/sql/parse.rs:85-102 | one name per table reference in a table factor |
| Parse.ExprNamesCount | src/sql/parse.rs:106-131 | one name per table reference in an expression |
| Parse.PlainSelectNames | src/sql/parse.rs:43-46 | `SELECT … FROM t1, …, tn` yields exactly t1 … tn, duplicates kept |
| Parse.PlainFromNames | src/sql/parse.rs:44-46 | a FROM list of plain tables yields their names in order |
| Parse.SetOperationNames | src/sql/parse.rs:57-67 | the operands of a UNION are not walked; only the CTEs count |
| Parse.StatementsNamesConcat | src/sql/parse.rs:21-33 | the names of several statements are each statement's names, concatenated |
| Excel.FirstIndexOf | src/data_source/excel.rs:13 | the first position of the character, or none when it does not occur |
| Excel.SplitSelector | src/data_source/excel.rs:12-15 | without `#` no selector; otherwise the path before the first `#`, and the rest starting with `#`, which together give back the path |
| Excel.ChooseSheet | src/data_source/excel.rs:23-35 | the selector if given, else the first sheet, else "Sheets not found" |
| Excel.WorksheetRange | src/data_source/excel.rs:37-39 | the sheet's range exactly when it exists; otherwise a spreadsheet error |
| Excel.DetermineDataType | src/data_source/excel.rs:116-126 | Int → Int32, Float → Float64, DateTime → Timestamp, anything else → Utf8, each exactly |
| Excel.HeaderSchema | src/data_source/excel.rs:103-114 | fails exactly on an empty range, with "Header not found"; otherwise one nullable field per header cell, named by its text and typed by the cell |
| Excel.AppendRow | src/data_source/excel.rs:50-52 | a row wider than the buffers panics; otherwise cell i goes to the end of buffer i |
| Excel.AppendRowsTransposes | src/data_source/excel.rs:49-53 | after all rows, buffer k is its old contents followed by column k of the rows |
| Excel.AppendRowsFailsOnWideRow | src/data_source/excel.rs:49-53 | the append panics exactly when some row is wider than the buffers |
| Excel.AppendRowTo | src/data_source/excel.rs:50-52 | the loop computes `AppendRow` |
| Excel.AppendRowsTo | src/data_source/excel.rs:49-53 | the loop computes `AppendRows` |
| Excel.DataRows | src/data_source/excel.rs:49 | every row but the header |
| Excel.IngestFile | src/data_source/excel.rs:21-54 | one buffer per field is kept, the schema never changes once set, and buffer k afterwards is its old contents followed by the k-th cells of the sheet's data rows in row order |
| Excel.IngestFiles | src/data_source/excel.rs:21-54 | every file's sheet was read when the walk succeeds, and a walk over at least one file has a schema |
| Excel.IngestFilesColumns | src/data_source/excel.rs:21-54 | on success buffer k is its old contents followed by column k of every file's data rows, file by file and then row by row |
| Excel.ReadFile | src/data_source/excel.rs:22-53 | one file's step, with the data-row loop of `AppendRowsTo`, computes `IngestFile` |
| Excel.AppendRowsKeepsWidth | src/data_source/excel.rs:49-53 | appending rows keeps the number of buffers |
| Excel.IngestFilesKeepsSchema | src/data_source/excel.rs:41-47 | the first file's header fixes the schema |
| Excel.IngestFilesShaped | src/data_source/excel.rs:41-53 | one buffer per field throughout ingestion |
| Excel.BuildArray | src/data_source/excel.rs:62-95 | an Int32 field panics "not implemented"; any other field gives an array as long as its buffer, text cells for Utf8 |
| Excel.BuildArrays | src/data_source/excel.rs:59-98 | one array per field in schema order; a panic exactly when some field is Int32 |
| Excel.TryNew | src/data_source/excel.rs:100 | a batch exactly when there are columns of equal length; otherwise the Arrow error for no columns or for unequal lengths |
| Excel.BuildArraysFor | src/data_source/excel.rs:59-98 | the loop computes `BuildArrays` |
| Excel.FromFileToRecordBatch | src/data_source/excel.rs:11-101 | the imperative ingestion computes `RecordBatchOf` |
| Excel.NoFilesPanics | src/data_source/excel.rs:17-56 | when the glob matches no file, the `unwrap` on the schema panics |
| Excel.OneArrayPerField | src/data_source/excel.rs:59-100 | a batch has one array per field, at least one, all of one length; no field is Int32 and every field is nullable |
| Excel.SchemaFieldsNullable | src/data_source/excel.rs:108 | every inferred field is nullable |
| Excel.SchemaFromFirstFile | src/data_source/excel.rs:41-47 | the batch's schema is the header of the chosen sheet of the first file |
| Excel.BatchColumnsFollowFiles | src/data_source/excel.rs:21-98 | array k of the batch is built from column k of all the files' data rows, in file order and then row order |
| Excel.IntHeaderPanics | src/data_source/excel.rs:94 | an integer header cell makes the build panic |
| Catalog.MissingColumn | src/sqlite.rs:11-18 | the first column an insert names that the table lacks, or none when all exist |
| Catalog.Inserted | src/sqlite.rs:14 | an insert succeeds exactly when its columns exist and its `table_ref` is new; then exactly that row is added; otherwise nothing changes and the store's error text is returned |
| Catalog.InsertedKeepsKeyed | src/sqlite.rs:14 | rows stay keyed by `table_ref`, and the count grows by one exactly on success |
| Catalog.TempInsertRejectedAsWritten | src/data_source/context.rs:115-125 | with `init_db`'s columns the TEMP insert fails on `type` and changes nothing |
| Catalog.InsertColumnsExist | src/data_source/context.rs:117 | with the kind column both inserts name only existing columns; the DDL insert does so either way |
| Catalog.Catalog.InitDb | src/sqlite.rs:8-21 | an empty catalog with the kind column |
| Catalog.Catalog.InitDbAsWritten | src/sqlite.rs:11-18 | an empty catalog with exactly `init_db`'s columns |
| Catalog.Catalog.Insert | src/data_source/context.rs:115-126 | the new rows and the error are `Inserted`'s, and rows stay keyed |
| Catalog.Distinct | src/data_source/context.rs:133-149 | same members as the list, each once |
| Catalog.Found | src/data_source/context.rs:143-149 | exactly the listed names that have a row, each with its stored path; distinct when the names are |
| Catalog.Lookup | src/data_source/context.rs:133-149 | the `IN (…)` query returns each listed name with a row exactly once, with its stored path |
| Context.GetDataDir | src/data_source/context.rs:30-32 | `DATA_DIR` if set, else the platform default |
| Context.PhysicalPath | src/data_source/context.rs:40-44 | a relative path is joined under the data directory; an absolute path is kept |
| Context.PhysicalPathKeepsFormat | src/data_source/context.rs:39-44 | the format detected on the stored path is the format of the physical path |
| Context.ListingBinding | src/data_source/context.rs:48-67 | the engine's listing table, or its error as a Bad Request |
| Context.FormatBinding | src/data_source/context.rs:46-78 | JSON is refused with "JSON files are currently not supported."; any other non-spreadsheet success is a listing table on the given path; a spreadsheet succeeds exactly when its batch is built, as an in-memory table of that batch |
| Context.TableBinding | src/data_source/context.rs:34-81 | no format gives Unprocessable Entity "None"; JSON gives "JSON files are currently not supported."; any success is a listing table |
| Context.TableBindingReaders | src/data_source/context.rs:46-67 | CSV uses default options, TSV a tab delimiter with `.tsv`, NDJSON its detected extension, each on the physical path |
| Context.SessionContext.constructor | src/data_source/context.rs:17-24 | a fresh context holds no table |
| Context.RegisterFormat | src/data_source/context.rs:46-78 | on success only the table is added with its binding; on failure the context is unchanged |
| Context.RegisterTable | src/data_source/context.rs:34-81 | registers exactly `TableBinding`'s outcome under the name |
| Context.Bindings | src/data_source/context.rs:151-154 | one `register_table` outcome per found row, in order |
| Context.BindAll | src/data_source/context.rs:151-154 | the walk fails exactly when some outcome is an error, and then with the first one |
| Context.BindAllFrame | src/data_source/context.rs:151-154 | a walk without failure adds exactly the items' names and keeps every other entry |
| Context.BindAllBinds | src/data_source/context.rs:151-154 | with distinct names, each item is bound to its own outcome |
| Context.BindTables | src/data_source/context.rs:151-154 | the loop registers the rows in order and stops at the first failure |
| Context.CatalogNames | src/data_source/context.rs:94-102 | exactly the identifiers with no detected format |
| Context.InlinePaths | src/data_source/context.rs:94-102 | exactly the identifiers with a detected format |
| Context.SplitCount | src/data_source/context.rs:94-102 | every identifier lands on exactly one side |
| Context.DistinctPaths | src/data_source/context.rs:94-106 | the intended list of inline paths: the same members, none repeated |
| Context.DistinctCount | src/data_source/context.rs:94-106 | a list without repeats is as long as the set of its members |
| Context.DistinctTempTablesCover | src/data_source/context.rs:94-106 | the intended alias list has one entry per distinct inline path, with no path twice, and as many entries as there are distinct paths |
| Context.Alias | src/data_source/context.rs:104-108 | `temp_`, the decimal text of the clock reading, `_`, then four alphanumerics |
| Context.AliasTimestamp | src/data_source/context.rs:104-108 | the alias's middle part is all digits and reads back as the clock reading |
| Context.AliasIsCatalogName | src/data_source/context.rs:96-108 | an alias has no file format, so it is always looked up in the catalog |
| Context.TempTables | src/data_source/context.rs:94-111 | one alias per inline path, in order, each aliased from its own clock reading and draws |
| Context.TempTablesSnoc | src/data_source/context.rs:94-111 | a further inline path adds one alias at the end |
| Context.TempRow | src/data_source/context.rs:115-125 | a TEMP row under the alias, without schema or comment, whose path has every quote removed |
| Context.SplitNames | src/data_source/context.rs:94-111 | the filter loop computes the catalog names and the aliased inline paths |
| Context.InsertTempTables | src/data_source/context.rs:113-131 | the insert loop computes `InsertTemps`: rows, rewritten SQL and the first store error |
| Context.InsertTempsRewrites | src/data_source/context.rs:113-131 | the inserts do not affect the text: a run without error returns the SQL rewritten for every inline path in order |
| Context.RewrittenAbsent | src/data_source/context.rs:128 | inline paths that do not occur in the SQL leave it unchanged |
| Context.RewrittenFirstOccurrence | src/data_source/context.rs:128 | the first path's leftmost occurrence becomes its alias, and the rest of the text is rewritten after it |
| Context.RegisterListingTable | src/data_source/context.rs:83-156 | leaves the catalog and returns the result that `ResolveListing` gives for the old catalog; the context is fresh |
| Context.RegisterNames | src/data_source/context.rs:85-156 | the same, once the identifiers are known |
| Context.FailureBeforeInsert | src/data_source/context.rs:85-88 | an extraction error or no identifier fails before any insert |
| Context.BindListLength | src/data_source/context.rs:133-141 | the bind list has one entry per `?` placeholder |
| Context.InsertTempsAddsRows | src/data_source/context.rs:113-131 | with the kind column and fresh distinct aliases, every TEMP row is added and the old rows are kept |
| Context.InlineTwice | src/data_source/context.rs:94-102 | an inline path named twice is listed twice |
| Context.DuplicatePathAddsTwoRows | src/data_source/context.rs:94-126 | as written, a query whose inline paths are one path named twice adds two TEMP rows for that path, although the query names one distinct path |
| Context.DistinctPathsAddOneRowEach | src/data_source/context.rs:94-126 | with the intended alias list, the catalog grows by exactly the number of distinct inline paths, each path's row is added under its alias, and the old rows are kept |
| Context.InsertTempsOnlyAddsTempRows | src/data_source/context.rs:113-131 | every row the inserts add is a TEMP row with a quote-free path |
| Context.ResolvedSqlIsRewritten | src/data_source/context.rs:113-156 | the SQL a successful resolution returns is the query with each inline path replaced by its alias, path by path in order |
| Context.UnmentionedPathsKeepSql | src/data_source/context.rs:113-156 | catalog names never change the SQL: when no inline path's text occurs in it, it is returned as given |
| Context.ResolvedRows | src/data_source/context.rs:113-156 | whatever the outcome, the catalog afterwards is the one the TEMP inserts leave |
| Context.NoInlinePathKeepsSqlAndCatalog | src/data_source/context.rs:113-131 | without an inline path the catalog and the SQL text are unchanged |
| Context.InlinePathRejectedAsWritten | src/data_source/context.rs:115-126 | with `init_db`'s columns, any query with an inline path fails on the missing `type` column and leaves the catalog unchanged |
| Context.LookupThenBindKeys | src/data_source/context.rs:133-154 | the context holds exactly the bind-list names that have a catalog row |
| Context.BindFoundRows | src/data_source/context.rs:151-154 | each bound name is a catalog name, bound by the rule applied to its stored path |
| Context.LookupThenBindValues | src/data_source/context.rs:143-154 | each bound name is bound as `register_table` binds its stored path |
| Context.BoundTablesAreFoundRows | src/data_source/context.rs:83-156 | after a successful resolution the context holds exactly the bind-list names that have a catalog row, each bound from its stored path |
| Controllers.FlattenResults | src/controllers.rs:63-106 | no batch gives an empty header and no rows; otherwise the header is the first batch's field names and the rows are every batch's rows in order; the type is DML |
| Controllers.AllRowsCount | src/controllers.rs:79-99 | the output has as many rows as the batches hold together |
| Controllers.AllRowsWidth | src/controllers.rs:92-98 | with n columns per batch, every row has n cells |
| Controllers.AllRowsConcat | src/controllers.rs:79-99 | flattening a split list flattens each part |
| Controllers.AllRowsSingle | src/controllers.rs:92-98 | one batch flattens to its own rows |
| Controllers.AllRowsAround | src/controllers.rs:79-99 | the output is the earlier batches' rows, then this batch's, then the later ones' |
| Controllers.AllRowsCell | src/controllers.rs:79-99 | row r of batch k sits at row (rows before batch k) + r, has one cell per column of its batch, and cell c is that column's r-th value |
| Controllers.FieldSchemas | src/controllers.rs:120-126 | one entry per declared column, in order, with name, type text and no comment |
| Controllers.DdlRow | src/controllers.rs:112-127 | no location gives "The location must be present."; an absolute location gives "The location must be a relative path."; otherwise a persistent row with the name, location, schema and comment |
| Controllers.RunDdl | src/controllers.rs:109-152 | the statement loop computes `ProcessDdl` on the catalog |
| Controllers.ProcessDdlConcat | src/controllers.rs:109-145 | the first failure stops the request; the rows inserted before it remain |
| Controllers.ProcessDdlKeepsRows | src/controllers.rs:109-145 | existing rows are never changed; each new row is persistent, relative and keyed by its name |
| Controllers.FreshNamesCons | src/controllers.rs:129-139 | the first table must be new, and the rest must be new once it is stored |
| Controllers.ProcessDdlSucceeds | src/controllers.rs:109-145 | a request succeeds exactly when every statement creates a table with a relative location under a name not yet taken |
| Controllers.ProcessDdlStoresRows | src/controllers.rs:119-139 | on success each statement's row is stored under its name, one new row per statement |

## Left out

- Logging is not modelled. `Exception::error_response` logs the failure with `eprintln!` through `log_error` (src/response/http_error.rs:43, 70-72), and every `From` impl prints a backtrace with `println!` (src/response/http_error.rs:101 and the impls after it). `HttpError.ErrorResponseOf` and `HttpError.FromForeign` state only the response and the failure built.
- HTTP plumbing is not modelled: actix routing and responders, the JSON envelopes of `src/response/schema.rs`, `src/response/utils.rs`, and `src/main.rs`.
- SQL parsing itself is external (sqlparser). The parser's output is an input, so `parse_sql` shows up only through its error case.
- The query engine (DataFusion) is external: `register_csv` and `register_json` are modelled by the error text they may return. `execute` and `get_data_frame` are left out; their result batches are the input of `Controllers.FlattenResults`.
- The `query` handler's DML and DDL dispatch is not modelled. It calls `database::determine_sql_type`, `database::register_listing_table`, `database::execute` and `DBError`. `src/database.rs` defines `execute(ctx: SessionContext, sql: &String) -> Vec<RecordBatch>`, which unwraps instead of returning a `Result`, and does not define `determine_sql_type`, `register_listing_table`, `DBError` or `SqlType`. The pieces are `Parse.GetSqlType`, `Context.RegisterListingTable`, `Controllers.FlattenResults` and `Controllers.RunDdl`. How `DBError` is turned into a response is not part of this model.
- The Arrow formatter's failure (src/controllers.rs:80-91) and the way the formatter renders cells are foreign code. A batch carries its cells already rendered.
- Numeric and date conversions of spreadsheet cells are not modelled: `as_i64`, `as_f64`, and timestamp parsing. Those arrays carry the raw cells; only the Utf8 array's text is modelled.
- Calamine's error wording is not modelled. A missing worksheet carries the sheet name as its text, and workbook opening and glob errors are whatever the store returns. As written, `find_files` receives the full path including any `#Sheet` selector, and the selector keeps its leading `#`. The model follows both.
- The SQLite store is an in-memory map. It rejects unknown columns and duplicate `table_ref`s. Connection, prepare and row-read failures are left out, as are `insert_query_history` and the `/db/catalog` listing.
- DDL rows: `serde_json::to_string` of the field list is taken to succeed, since plain records of strings do not fail to serialise. The store leaves `type` NULL on such rows; the model records them as `Persistent`.
- The clock, the random generator, `DATA_DIR`, the build-time `HOME` and the platform are parameters. `get_os`'s exit on an unknown platform is left out.
- `check_path_exists`, `is_directory` and `join_paths` are left out: they are unused and touch the file system.
- Utils.IsRelativePath: applies the Unix rule (relative unless it starts with `/`) on every platform. On Windows `Path::is_relative` also treats drive and UNC prefixes as absolute, and the model does not.
- Integers are unbounded. i64 overflow of timestamps and durations is not modelled.
- The order of the catalog lookup's rows is unspecified in the source (no `ORDER BY`). The model fixes first-occurrence order.
- Duplicate registration in the engine is not modelled. The model's `SessionContext` map replaces an existing binding. DataFusion's in-memory schema refuses a second registration, and also lower-cases unquoted names, so catalog rows `A` and `a` would collide there but are different keys in the model. Neither case arises in the model, because the catalog lookup returns each `table_ref` once.
- Context.TableBinding: its contract states the error cases and that success is a listing table. The reader per format is stated in `Context.TableBindingReaders`. The spreadsheet branch is out of reach and is specified only through `Context.RegisterFormat`.

## Findings

| source | as written | input that shows it | evidently intended | confidence | as-written member | corrected member |
|---|---|---|---|---|---|---|
| src/data_source/context.rs:117 | the TEMP insert names a `type` column, which the `catalog` table created at src/sqlite.rs:11-18 does not have | `SELECT * FROM 'data/a.csv'` on a catalog set up by `init_db` | the catalog has a kind column (`'TEMP'` or NULL) and the insert stores the row | not executed | Context.InlinePathRejectedAsWritten | Context.InsertTempsAddsRows |
| src/data_source/context.rs:94-126 | one alias and one TEMP row per occurrence of an inline path. The first `replace` rewrites every occurrence, so the later aliases are stored and bound but never named in the SQL | `SELECT * FROM 'data/a.csv' x JOIN 'data/a.csv' y ON x.id = y.id` adds two TEMP rows for `data/a.csv` | repeated paths are dropped before aliasing, giving one alias and one TEMP row per distinct path | not executed | Context.DuplicatePathAddsTwoRows | Context.DistinctPathsAddOneRowEach |

The second row's corrected alias list is `Context.DistinctTempTables`. Resolution as modelled keeps the per-occurrence list, so that the other resolution lemmas describe the code as written.
