/**
 * The `/db/query` handler of src/controllers.rs, past parsing: the DML
 * branch, which flattens the record batches a query returns into a header
 * and rows of cell texts, and the DDL branch, which turns each
 * `CREATE TABLE … LOCATION '…'` into a persistent catalog row.
 */
module Controllers {
  import opened Wrappers
  import opened SqlAst
  import Parse
  import Utils
  import Cat = Catalog

  // ---------------------------------------------------------------------------
  // Results of a DML statement.

  /**
   * A record batch as the display formatter (nulls shown as "null") renders
   * it: the schema's field names and, column by column, the text of each cell.
   */
  datatype Batch = Batch(fieldNames: seq<string>, columns: seq<seq<string>>, numRows: nat)

  /** One field per column, and every column `numRows` long, as a record batch guarantees. */
  predicate WellFormed(b: Batch) {
    && |b.fieldNames| == |b.columns|
    && forall c :: 0 <= c < |b.columns| ==> |b.columns[c]| == b.numRows
  }

  predicate AllWellFormed(results: seq<Batch>) {
    forall k :: 0 <= k < |results| ==> WellFormed(results[k])
  }

  /** The body of a successful response (`QueryResult` of src/controllers.rs). */
  datatype QueryResult = QueryResult(header: Option<seq<string>>, rows: Option<seq<seq<string>>>, sqlType: Option<Parse.SqlType>)

  /** The cells of row `r` of a batch, one per column, in column order. */
  function Row(b: Batch, r: nat): (cells: seq<string>)
    requires WellFormed(b) && r < b.numRows
  {
    seq(|b.columns|, c requires 0 <= c < |b.columns| => b.columns[c][r])
  }

  /** The rows of one batch, in row order. */
  function BatchRows(b: Batch): seq<seq<string>>
    requires WellFormed(b)
  {
    seq(b.numRows, r requires 0 <= r < b.numRows => Row(b, r))
  }

  /** The rows of all batches, batch after batch. */
  function AllRows(results: seq<Batch>): seq<seq<string>>
    requires AllWellFormed(results)
    decreases |results|
  {
    if results == [] then []
    else AllRows(results[..|results| - 1]) + BatchRows(results[|results| - 1])
  }

  /** The sum of the batches' row counts. */
  function TotalRows(results: seq<Batch>): nat
    decreases |results|
  {
    if results == [] then 0
    else TotalRows(results[..|results| - 1]) + results[|results| - 1].numRows
  }

  /**
   * The DML branch after execution: an empty result list gives an empty
   * header and no rows; otherwise the header is the first batch's field
   * names and the rows are every batch's rows in order.
   */
  method FlattenResults(results: seq<Batch>) returns (r: QueryResult)
    requires AllWellFormed(results)
    ensures r.sqlType == Some(Parse.DML)
    ensures r.header == Some(if results == [] then [] else results[0].fieldNames)
    ensures r.rows == Some(AllRows(results))
  {
    if |results| == 0 {
      return QueryResult(Some([]), Some([]), Some(Parse.DML));
    }
    var fields := results[0].fieldNames;
    var header := [];
    for f := 0 to |fields|
      invariant header == fields[..f]
    {
      header := header + [fields[f]];
    }
    assert fields[..|fields|] == fields;
    var rows := [];
    for i := 0 to |results|
      invariant rows == AllRows(results[..i])
    {
      var batch := results[i];
      for row := 0 to batch.numRows
        invariant rows == AllRows(results[..i]) + BatchRows(batch)[..row]
      {
        var cells := [];
        for c := 0 to |batch.columns|
          invariant cells == Row(batch, row)[..c]
        {
          cells := cells + [batch.columns[c][row]];
        }
        assert Row(batch, row)[..|batch.columns|] == Row(batch, row);
        assert BatchRows(batch)[..row + 1] == BatchRows(batch)[..row] + [Row(batch, row)];
        rows := rows + [cells];
      }
      assert results[..i + 1][..i] == results[..i];
      assert BatchRows(batch)[..batch.numRows] == BatchRows(batch);
    }
    assert results[..|results|] == results;
    r := QueryResult(Some(header), Some(rows), Some(Parse.DML));
  }

  /** As many rows come out as the batches hold together. */
  lemma {:induction false} AllRowsCount(results: seq<Batch>)
    requires AllWellFormed(results)
    ensures |AllRows(results)| == TotalRows(results)
    decreases |results|
  {
    if results != [] {
      AllRowsCount(results[..|results| - 1]);
    }
  }

  /** When every batch has `n` columns, every row has `n` cells. */
  lemma {:induction false} AllRowsWidth(results: seq<Batch>, n: nat)
    requires AllWellFormed(results)
    requires forall k :: 0 <= k < |results| ==> |results[k].columns| == n
    ensures forall j :: 0 <= j < |AllRows(results)| ==> |AllRows(results)[j]| == n
    decreases |results|
  {
    if results != [] {
      AllRowsWidth(results[..|results| - 1], n);
    }
  }

  /** Flattening a split list is flattening each part. */
  lemma {:induction false} AllRowsConcat(a: seq<Batch>, b: seq<Batch>)
    requires AllWellFormed(a) && AllWellFormed(b)
    ensures AllWellFormed(a + b)
    ensures AllRows(a + b) == AllRows(a) + AllRows(b)
    decreases |b|
  {
    if b == [] {
      assert a + b == a;
    } else {
      var init := b[..|b| - 1];
      assert (a + b)[..|a + b| - 1] == a + init;
      assert (a + b)[|a + b| - 1] == b[|b| - 1];
      AllRowsConcat(a, init);
    }
  }

  /** A single batch flattens to its own rows. */
  lemma AllRowsSingle(b: Batch)
    requires WellFormed(b)
    ensures AllWellFormed([b]) && AllRows([b]) == BatchRows(b)
  {
    assert [b][..0] == [];
  }

  /** The output around one batch: the rows before it, its own rows, the rows after it. */
  lemma {:induction false} AllRowsAround(results: seq<Batch>, k: nat)
    requires AllWellFormed(results) && k < |results|
    ensures AllRows(results) == AllRows(results[..k]) + BatchRows(results[k]) + AllRows(results[k + 1..])
    decreases |results|
  {
    var n := |results| - 1;
    var init := results[..n];
    if k == n {
      assert results[k + 1..] == [];
    } else {
      AllRowsAround(init, k);
      assert init[..k] == results[..k] && init[k] == results[k];
      var after := results[k + 1..];
      assert after[..|after| - 1] == init[k + 1..] && after[|after| - 1] == results[n];
    }
  }

  /**
   * Cell `c` of row `r` of batch `k` is found in the output after the rows of
   * the batches before it: batch order first, then row order, then column order.
   */
  lemma AllRowsCell(results: seq<Batch>, k: nat, r: nat, c: nat)
    requires AllWellFormed(results)
    requires k < |results| && r < results[k].numRows && c < |results[k].columns|
    ensures TotalRows(results[..k]) + r < |AllRows(results)|
    ensures |AllRows(results)[TotalRows(results[..k]) + r]| == |results[k].columns|
    ensures c < |AllRows(results)[TotalRows(results[..k]) + r]|
    ensures AllRows(results)[TotalRows(results[..k]) + r][c] == results[k].columns[c][r]
  {
    AllRowsAround(results, k);
    AllRowsCount(results[..k]);
    var before, own, after := AllRows(results[..k]), BatchRows(results[k]), AllRows(results[k + 1..]);
    MiddleIndex(before, own, after, r);
    assert own[r] == Row(results[k], r);
  }

  lemma MiddleIndex<T>(before: seq<T>, own: seq<T>, after: seq<T>, r: nat)
    requires r < |own|
    ensures |before| + r < |before + own + after|
    ensures (before + own + after)[|before| + r] == own[r]
  {
  }

  // ---------------------------------------------------------------------------
  // DDL statements.

  /** `DBError::SQLError`, carrying the message text of the failure. */
  datatype DbError = SqlError(message: string)

  const LOCATION_MISSING := "The location must be present."
  const LOCATION_NOT_RELATIVE := "The location must be a relative path."
  const UNSUPPORTED_STATEMENT := "Unsupported statement."

  /** The response body of a successful DDL request. */
  const DDL_RESULT := QueryResult(None, None, Some(Parse.DDL))

  /** The stored schema of a table: one entry per declared column, in order, without comment. */
  function FieldSchemas(columns: seq<ColumnDef>): (fs: seq<Cat.FieldSchema>)
    ensures |fs| == |columns|
    ensures forall i :: 0 <= i < |columns| ==>
      fs[i].field == columns[i].name && fs[i].fieldType == columns[i].dataType && fs[i].comment.None?
    decreases |columns|
  {
    if columns == [] then []
    else [Cat.FieldSchema(columns[0].name, columns[0].dataType, None)] + FieldSchemas(columns[1..])
  }

  /**
   * The catalog row a `CREATE TABLE` statement stands for, or the error that
   * rejects it before anything is inserted.
   */
  function DdlRow(create: CreateTableStatement): (r: Result<Cat.CatalogRow, DbError>)
    ensures r.Ok? <==> create.location.Some? && Utils.IsRelativePath(create.location.value)
    ensures create.location.None? ==> r == Err(SqlError(LOCATION_MISSING))
    ensures create.location.Some? && !Utils.IsRelativePath(create.location.value) ==> r == Err(SqlError(LOCATION_NOT_RELATIVE))
    ensures r.Ok? ==> && r.value.tableRef == create.name
                      && r.value.tablePath == create.location.value
                      && r.value.tableSchema == Some(FieldSchemas(create.columns))
                      && r.value.tableComment == create.comment
                      && r.value.kind == Cat.Persistent
  {
    match create.location
    case None => Err(SqlError(LOCATION_MISSING))
    case Some(location) =>
      if !Utils.IsRelativePath(location) then Err(SqlError(LOCATION_NOT_RELATIVE))
      else Ok(Cat.CatalogRow(create.name, location, Some(FieldSchemas(create.columns)), create.comment, Cat.Persistent))
  }

  /** The catalog rows after a DDL request and its response or error. */
  datatype DdlOutcome = DdlOutcome(rows: map<string, Cat.CatalogRow>, result: Result<QueryResult, DbError>)

  /** The DDL branch: statements in order, each inserted at once; the first failure ends the request. */
  function ProcessDdl(columns: seq<string>, rows: map<string, Cat.CatalogRow>, statements: seq<Statement>): DdlOutcome
    decreases |statements|
  {
    if statements == [] then DdlOutcome(rows, Ok(DDL_RESULT))
    else
      match statements[0]
      case CreateTable(create) =>
        (match DdlRow(create)
         case Err(e) => DdlOutcome(rows, Err(e))
         case Ok(row) =>
           var inserted := Cat.Inserted(columns, rows, Cat.DDL_INSERT_COLUMNS, row);
           if inserted.0.Some? then DdlOutcome(rows, Err(SqlError(inserted.0.value)))
           else ProcessDdl(columns, inserted.1, statements[1..]))
      case _ => DdlOutcome(rows, Err(SqlError(UNSUPPORTED_STATEMENT)))
  }

  method RunDdl(catalog: Cat.Catalog, statements: seq<Statement>) returns (result: Result<QueryResult, DbError>)
    requires catalog.Valid()
    modifies catalog
    ensures catalog.Valid()
    ensures DdlOutcome(catalog.rows, result) == ProcessDdl(catalog.columns, old(catalog.rows), statements)
  {
    for i := 0 to |statements|
      invariant catalog.Valid()
      invariant ProcessDdl(catalog.columns, catalog.rows, statements[i..]) == ProcessDdl(catalog.columns, old(catalog.rows), statements)
    {
      assert statements[i..][1..] == statements[i + 1..];
      match statements[i]
      case CreateTable(create) =>
        var row := DdlRow(create);
        if row.Err? {
          return Err(row.error);
        }
        var error := catalog.Insert(Cat.DDL_INSERT_COLUMNS, row.value);
        if error.Some? {
          return Err(SqlError(error.value));
        }
      case _ =>
        return Err(SqlError(UNSUPPORTED_STATEMENT));
    }
    assert statements[|statements|..] == [];
    result := Ok(DDL_RESULT);
  }

  /** Running the statements of `a + b` is running `a`, then `b` on its rows if `a` succeeded. */
  lemma {:induction false} ProcessDdlConcat(columns: seq<string>, rows: map<string, Cat.CatalogRow>, a: seq<Statement>, b: seq<Statement>)
    ensures var first := ProcessDdl(columns, rows, a);
      ProcessDdl(columns, rows, a + b) == if first.result.Ok? then ProcessDdl(columns, first.rows, b) else first
    decreases |a|
  {
    if a == [] {
      assert a + b == b;
    } else {
      assert (a + b)[0] == a[0];
      assert (a + b)[1..] == a[1..] + b;
      match a[0]
      case CreateTable(create) =>
        if DdlRow(create).Ok? {
          var inserted := Cat.Inserted(columns, rows, Cat.DDL_INSERT_COLUMNS, DdlRow(create).value);
          if inserted.0.None? {
            ProcessDdlConcat(columns, inserted.1, a[1..], b);
          }
        }
      case _ =>
    }
  }

  /**
   * Rows present before a DDL request stay as they were, whatever fails; each
   * row it adds is a persistent row with a relative path, stored under its name.
   */
  lemma {:induction false} ProcessDdlKeepsRows(columns: seq<string>, rows: map<string, Cat.CatalogRow>, statements: seq<Statement>)
    ensures var after := ProcessDdl(columns, rows, statements).rows;
      && (forall x :: x in rows ==> x in after && after[x] == rows[x])
      && (forall x :: x in after && x !in rows ==>
            && after[x].tableRef == x
            && after[x].kind == Cat.Persistent
            && Utils.IsRelativePath(after[x].tablePath))
    decreases |statements|
  {
    if statements != [] && statements[0].CreateTable? {
      var row := DdlRow(statements[0].create);
      if row.Ok? {
        var inserted := Cat.Inserted(columns, rows, Cat.DDL_INSERT_COLUMNS, row.value);
        if inserted.0.None? {
          ProcessDdlKeepsRows(columns, inserted.1, statements[1..]);
        }
      }
    }
  }

  /** Every statement is a `CREATE TABLE` with a relative location. */
  predicate AllCreateWithLocation(statements: seq<Statement>) {
    forall i :: 0 <= i < |statements| ==> statements[i].CreateTable? && DdlRow(statements[i].create).Ok?
  }

  /** The tables created are named distinctly and none is in the catalog yet. */
  predicate FreshNames(rows: map<string, Cat.CatalogRow>, statements: seq<Statement>) {
    && (forall i :: 0 <= i < |statements| && statements[i].CreateTable? ==> statements[i].create.name !in rows)
    && (forall i, j :: 0 <= i < j < |statements| && statements[i].CreateTable? && statements[j].CreateTable? ==>
          statements[i].create.name != statements[j].create.name)
  }

  /** The first table must be new, and the others must be new once it is stored. */
  lemma FreshNamesCons(rows: map<string, Cat.CatalogRow>, statements: seq<Statement>, row: Cat.CatalogRow)
    requires statements != [] && statements[0].CreateTable?
    ensures FreshNames(rows, statements) <==>
      statements[0].create.name !in rows && FreshNames(rows[statements[0].create.name := row], statements[1..])
  {
    var rest := statements[1..];
    var name := statements[0].create.name;
    assert forall i :: 0 < i < |statements| ==> statements[i] == rest[i - 1];
    if FreshNames(rows, statements) {
      forall i | 0 <= i < |rest| && rest[i].CreateTable? ensures rest[i].create.name !in rows[name := row] {
        assert rest[i] == statements[i + 1];
      }
      forall i, j | 0 <= i < j < |rest| && rest[i].CreateTable? && rest[j].CreateTable?
        ensures rest[i].create.name != rest[j].create.name
      {
        assert rest[i] == statements[i + 1] && rest[j] == statements[j + 1];
      }
    }
  }

  /**
   * With a catalog that has the columns the insert names, a DDL request
   * succeeds exactly when every statement creates a table with a relative
   * location under a name not yet taken.
   */
  lemma {:induction false} ProcessDdlSucceeds(columns: seq<string>, rows: map<string, Cat.CatalogRow>, statements: seq<Statement>)
    requires Cat.MissingColumn(columns, Cat.DDL_INSERT_COLUMNS).None?
    ensures ProcessDdl(columns, rows, statements).result.Ok? <==>
      AllCreateWithLocation(statements) && FreshNames(rows, statements)
    decreases |statements|
  {
    if statements != [] {
      var rest := statements[1..];
      assert AllCreateWithLocation(statements) <==>
        statements[0].CreateTable? && DdlRow(statements[0].create).Ok? && AllCreateWithLocation(rest)
      by {
        assert forall i :: 0 < i < |statements| ==> statements[i] == rest[i - 1];
      }
      if statements[0].CreateTable? && DdlRow(statements[0].create).Ok? {
        var row := DdlRow(statements[0].create).value;
        ProcessDdlSucceeds(columns, rows[row.tableRef := row], rest);
        FreshNamesCons(rows, statements, row);
      }
    }
  }

  /** On success every statement's row is stored under its table name, and the catalog grows by one row per statement. */
  lemma {:induction false} ProcessDdlStoresRows(columns: seq<string>, rows: map<string, Cat.CatalogRow>, statements: seq<Statement>)
    requires ProcessDdl(columns, rows, statements).result.Ok?
    ensures AllCreateWithLocation(statements)
    ensures var after := ProcessDdl(columns, rows, statements).rows;
      && |after| == |rows| + |statements|
      && forall i :: 0 <= i < |statements| ==>
           statements[i].create.name in after && after[statements[i].create.name] == DdlRow(statements[i].create).value
    decreases |statements|
  {
    if statements != [] {
      var rest := statements[1..];
      var row := DdlRow(statements[0].create).value;
      var next := rows[row.tableRef := row];
      ProcessDdlStoresRows(columns, next, rest);
      ProcessDdlKeepsRows(columns, next, rest);
      assert forall i :: 0 < i < |statements| ==> statements[i] == rest[i - 1];
    }
  }
}
