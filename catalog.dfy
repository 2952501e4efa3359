/**
 * The catalog table of the embedded SQLite store (src/sqlite.rs) as the
 * resolution layer and the DDL path use it: inserts that the store checks
 * for unknown columns and for the UNIQUE `table_ref`, and the `IN (…)`
 * lookup of a list of names.
 */
module Catalog {
  import opened Wrappers

  /** `TEMP` rows come from inline file paths; rows from `CREATE TABLE` carry no kind. */
  datatype EntryKind = Temp | Persistent

  /** One declared column of a registered table. */
  datatype FieldSchema = FieldSchema(field: string, fieldType: string, comment: Option<string>)

  datatype CatalogRow = CatalogRow(
    tableRef: string,
    tablePath: string,
    tableSchema: Option<seq<FieldSchema>>,
    tableComment: Option<string>,
    kind: EntryKind)

  /** A name and the path the catalog holds for it (`TableCatalog` of src/server/schema.rs). */
  datatype TableCatalog = TableCatalog(tableName: string, tablePath: string)

  /** The names of a list of catalog entries, in order. */
  function Names(items: seq<TableCatalog>): (names: seq<string>)
    ensures |names| == |items|
    ensures forall k :: 0 <= k < |items| ==> names[k] == items[k].tableName
    decreases |items|
  {
    if items == [] then [] else [items[0].tableName] + Names(items[1..])
  }

  const UNIQUE_VIOLATION := "UNIQUE constraint failed: catalog.table_ref"

  /** The columns `init_db` creates. */
  const INIT_DB_COLUMNS: seq<string> := ["id", "db_ref", "table_ref", "table_path", "table_comment", "table_schema"]
  /** The catalog with the column that records a row's kind. */
  const CATALOG_COLUMNS: seq<string> := INIT_DB_COLUMNS + ["type"]
  /** The columns the resolver's insert of an inline path names. */
  const TEMP_INSERT_COLUMNS: seq<string> := ["table_ref", "table_path", "type"]
  /** The columns the `CREATE TABLE` insert names. */
  const DDL_INSERT_COLUMNS: seq<string> := ["table_ref", "table_path", "table_schema", "table_comment"]

  function NoSuchColumn(column: string): string {
    "table catalog has no column named " + column
  }

  /** The first column an insert names that the table lacks. */
  function MissingColumn(tableColumns: seq<string>, insertColumns: seq<string>): (r: Option<string>)
    ensures r.None? <==> forall c :: c in insertColumns ==> c in tableColumns
    ensures r.Some? ==> r.value in insertColumns && r.value !in tableColumns
  {
    if insertColumns == [] then None
    else if insertColumns[0] !in tableColumns then Some(insertColumns[0])
    else
      assert forall c :: c in insertColumns ==> c == insertColumns[0] || c in insertColumns[1..];
      MissingColumn(tableColumns, insertColumns[1..])
  }

  /** The store's answer to one insert: the error text, if any, and the rows afterwards. */
  function Inserted(columns: seq<string>, rows: map<string, CatalogRow>, insertColumns: seq<string>, row: CatalogRow)
    : (r: (Option<string>, map<string, CatalogRow>))
    ensures r.0.None? <==> MissingColumn(columns, insertColumns).None? && row.tableRef !in rows
    ensures r.0.None? ==> r.1 == rows[row.tableRef := row]
    ensures r.0.Some? ==> r.1 == rows
    ensures MissingColumn(columns, insertColumns).Some? ==> r.0 == Some(NoSuchColumn(MissingColumn(columns, insertColumns).value))
    ensures MissingColumn(columns, insertColumns).None? && row.tableRef in rows ==> r.0 == Some(UNIQUE_VIOLATION)
  {
    match MissingColumn(columns, insertColumns)
    case Some(c) => (Some(NoSuchColumn(c)), rows)
    case None =>
      if row.tableRef in rows then (Some(UNIQUE_VIOLATION), rows)
      else (None, rows[row.tableRef := row])
  }

  /** Every row is stored under its own `table_ref`. */
  ghost predicate Keyed(rows: map<string, CatalogRow>) {
    forall r :: r in rows ==> rows[r].tableRef == r
  }

  class Catalog {
    const columns: seq<string>
    var rows: map<string, CatalogRow>

    ghost predicate Valid()
      reads this
    {
      Keyed(rows)
    }

    /** An empty catalog with the kind column. */
    constructor InitDb()
      ensures columns == CATALOG_COLUMNS && rows == map[] && Valid()
    {
      columns := CATALOG_COLUMNS;
      rows := map[];
    }

    /** An empty catalog with exactly the columns `init_db` creates. */
    constructor InitDbAsWritten()
      ensures columns == INIT_DB_COLUMNS && rows == map[] && Valid()
    {
      columns := INIT_DB_COLUMNS;
      rows := map[];
    }

    /** `conn.execute("insert into catalog (…) values (…)")`. */
    method Insert(insertColumns: seq<string>, row: CatalogRow) returns (error: Option<string>)
      requires Valid()
      modifies this
      ensures Valid()
      ensures (error, rows) == Inserted(columns, old(rows), insertColumns, row)
    {
      var outcome := Inserted(columns, rows, insertColumns, row);
      error := outcome.0;
      rows := outcome.1;
    }
  }

  /** An insert either adds exactly its row or changes nothing. */
  lemma InsertedKeepsKeyed(columns: seq<string>, rows: map<string, CatalogRow>, insertColumns: seq<string>, row: CatalogRow)
    requires Keyed(rows)
    ensures Keyed(Inserted(columns, rows, insertColumns, row).1)
    ensures |Inserted(columns, rows, insertColumns, row).1| == |rows| + (if Inserted(columns, rows, insertColumns, row).0.None? then 1 else 0)
  {
  }

  /** The insert of an inline path names a column the `init_db` table does not have. */
  lemma TempInsertRejectedAsWritten(rows: map<string, CatalogRow>, row: CatalogRow)
    ensures Inserted(INIT_DB_COLUMNS, rows, TEMP_INSERT_COLUMNS, row) == (Some(NoSuchColumn("type")), rows)
  {
    assert MissingColumn(INIT_DB_COLUMNS, TEMP_INSERT_COLUMNS[2..]) == Some("type");
    assert MissingColumn(INIT_DB_COLUMNS, TEMP_INSERT_COLUMNS[1..]) == Some("type");
  }

  /** With the kind column present, both inserts name only existing columns. */
  lemma InsertColumnsExist()
    ensures MissingColumn(CATALOG_COLUMNS, TEMP_INSERT_COLUMNS) == None
    ensures MissingColumn(CATALOG_COLUMNS, DDL_INSERT_COLUMNS) == None
    ensures MissingColumn(INIT_DB_COLUMNS, DDL_INSERT_COLUMNS) == None
  {
  }

  // ---------------------------------------------------------------------------
  // Lookup of a list of names.

  /** The names in first-occurrence order, each once. */
  function Distinct(names: seq<string>): (r: seq<string>)
    ensures forall x :: x in r <==> x in names
    ensures forall i, j :: 0 <= i < j < |r| ==> r[i] != r[j]
    decreases |names|
  {
    if names == [] then []
    else
      var prefix := Distinct(names[..|names| - 1]);
      assert forall x :: x in names <==> x in names[..|names| - 1] || x == names[|names| - 1];
      if names[|names| - 1] in prefix then prefix else prefix + [names[|names| - 1]]
  }

  function Found(rows: map<string, CatalogRow>, names: seq<string>): (r: seq<TableCatalog>)
    ensures forall i :: 0 <= i < |r| ==> r[i].tableName in names && r[i].tableName in rows && r[i].tablePath == rows[r[i].tableName].tablePath
    ensures forall n :: n in names && n in rows ==> exists i :: 0 <= i < |r| && r[i].tableName == n
    ensures (forall i, j :: 0 <= i < j < |names| ==> names[i] != names[j]) ==>
      forall i, j :: 0 <= i < j < |r| ==> r[i].tableName != r[j].tableName
    decreases |names|
  {
    if names == [] then []
    else
      var last := names[|names| - 1];
      var prefix := Found(rows, names[..|names| - 1]);
      assert forall x :: x in names <==> x in names[..|names| - 1] || x == last;
      if last in rows then
        var r := prefix + [TableCatalog(last, rows[last].tablePath)];
        assert r[|r| - 1].tableName == last;
        assert forall i :: 0 <= i < |prefix| ==> r[i] == prefix[i];
        assert (forall i, j :: 0 <= i < j < |names| ==> names[i] != names[j]) ==> last !in names[..|names| - 1] by {
          if forall i, j :: 0 <= i < j < |names| ==> names[i] != names[j] {
            forall k | 0 <= k < |names| - 1 ensures names[k] != last {
              assert names[k] != names[|names| - 1];
            }
          }
        }
        r
      else prefix
  }

  /**
   * `SELECT table_ref, table_path FROM catalog WHERE table_ref IN (…)`: each
   * stored name of the list once, names without a row left out silently.
   * The store fixes no order; this model lists rows in the names'
   * first-occurrence order.
   */
  function Lookup(rows: map<string, CatalogRow>, names: seq<string>): (r: seq<TableCatalog>)
    ensures forall i :: 0 <= i < |r| ==> r[i].tableName in names && r[i].tableName in rows && r[i].tablePath == rows[r[i].tableName].tablePath
    ensures forall n :: n in names && n in rows ==> exists i :: 0 <= i < |r| && r[i].tableName == n
    ensures forall i, j :: 0 <= i < j < |r| ==> r[i].tableName != r[j].tableName
  {
    Found(rows, Distinct(names))
  }
}
