/**
 * Table resolution and binding (src/data_source/context.rs): the table
 * identifiers of a query are split into catalog names and inline file
 * paths; every inline path gets a `temp_…` alias and a TEMP catalog row and
 * is replaced by its alias in the SQL text; then every catalog row named by
 * the bind list is registered in a fresh session context under the reader
 * its format calls for.
 */
module Context {
  import opened Wrappers
  import opened Strings
  import opened HttpError
  import SqlError
  import opened SqlAst
  import Parse
  import opened Utils
  import opened DataSourceSchema
  import opened DataSourceUtils
  import opened Excel
  import Cat = Catalog

  /** The reader options a listing table is registered with. */
  datatype ReadOptions =
    | CsvReadOptions(delimiter: char, fileExtension: string)
    | NdJsonReadOptions(fileExtension: string)

  const CSV_OPTIONS := CsvReadOptions(',', ".csv")
  const TSV_OPTIONS := CsvReadOptions('\t', ".tsv")

  /** What a session context holds under a table name. */
  datatype Binding =
    | ListingTable(path: string, options: ReadOptions)
    | MemoryTable(batch: RecordBatch)

  /**
   * The process environment and the engine: the `DATA_DIR` variable, the
   * platform, the build-time `HOME`, the workbook files, and the error text
   * the query engine reports when it cannot register a listing table (None
   * when it can).
   */
  datatype Environment = Environment(
    dataDirVariable: Option<string>,
    os: OperatingSystem,
    home: string,
    workbooks: WorkbookStore,
    listingError: (string, ReadOptions) -> Option<string>)

  const JSON_UNSUPPORTED := "JSON files are currently not supported."
  /** The `{:?}` rendering of an absent format. */
  const UNDETECTED_FORMAT := "None"
  const TABLE_NAME_EMPTY := "Table name is empty"
  const PATH_SEPARATOR := "/"

  /** `get_data_dir`: the `DATA_DIR` variable, else the platform default. */
  function GetDataDir(env: Environment): (dir: string)
    ensures env.dataDirVariable.Some? ==> dir == env.dataDirVariable.value
    ensures env.dataDirVariable.None? ==> dir == DefaultDataDir(env.os, env.home)
  {
    env.dataDirVariable.GetOr(DefaultDataDir(env.os, env.home))
  }

  /** A relative catalog path lives under the data directory; an absolute one is used as is. */
  function PhysicalPath(tablePath: string, dataDir: string): (p: string)
    ensures IsRelativePath(tablePath) ==> p == dataDir + PATH_SEPARATOR + tablePath
    ensures !IsRelativePath(tablePath) ==> p == tablePath
  {
    if IsRelativePath(tablePath) then dataDir + PATH_SEPARATOR + tablePath else tablePath
  }

  /** Detecting the format before or after the data directory is prefixed gives the same answer. */
  lemma PhysicalPathKeepsFormat(tablePath: string, dataDir: string)
    ensures GetFormat(PhysicalPath(tablePath, dataDir)) == GetFormat(tablePath)
  {
    if IsRelativePath(tablePath) {
      PrefixPreservesFormat(dataDir, tablePath);
    }
  }

  // ---------------------------------------------------------------------------
  // register_table

  function ListingBinding(path: string, options: ReadOptions, env: Environment): (r: Result<Binding, Failure>)
    ensures r.Ok? <==> env.listingError(path, options).None?
    ensures r.Ok? ==> r.value == ListingTable(path, options)
    ensures r.Err? ==> r.error == Raised(FromForeign(ForeignError(DataFusion, env.listingError(path, options).value)))
  {
    match env.listingError(path, options)
    case Some(text) => Err(Raised(FromForeign(ForeignError(DataFusion, text))))
    case None => Ok(ListingTable(path, options))
  }

  /** The binding each format gets; JSON is refused before the engine sees it. */
  function FormatBinding(format: DataSourceFormat, path: string, env: Environment): (r: Result<Binding, Failure>)
    ensures format == JSON ==> r == Err(Raised(BadRequestError(JSON_UNSUPPORTED)))
    ensures r.Ok? && !format.XLSX? ==> r.value.ListingTable? && r.value.path == path
    ensures format.XLSX? ==> (r.Ok? <==> RecordBatchOf(path, env.workbooks).Ok?)
    ensures format.XLSX? && r.Ok? ==> r.value == MemoryTable(RecordBatchOf(path, env.workbooks).value)
  {
    match format
    case CSV => ListingBinding(path, CSV_OPTIONS, env)
    case TSV => ListingBinding(path, TSV_OPTIONS, env)
    case JSON => Err(Raised(BadRequestError(JSON_UNSUPPORTED)))
    case NdJson(extension) => ListingBinding(path, NdJsonReadOptions(extension), env)
    case XLSX =>
      match RecordBatchOf(path, env.workbooks)
      case Err(f) => Err(f)
      case Ok(batch) => Ok(MemoryTable(batch))
  }

  /**
   * What `register_table` binds for a catalog path: the format is detected
   * on the path as stored, the reader gets the physical path.
   */
  function TableBinding(tablePath: string, env: Environment): (r: Result<Binding, Failure>)
    ensures GetFormat(tablePath).None? ==> r == Err(Raised(UnprocessableEntityError(UNDETECTED_FORMAT)))
    ensures GetFormat(tablePath) == Some(JSON) ==> r == Err(Raised(BadRequestError(JSON_UNSUPPORTED)))
    ensures r.Ok? ==> r.value.ListingTable?
  {
    match GetFormat(tablePath)
    case None => Err(Raised(UnprocessableEntityError(UNDETECTED_FORMAT)))
    case Some(format) => FormatBinding(format, PhysicalPath(tablePath, GetDataDir(env)), env)
  }

  /**
   * The reader each detected format gets: comma-separated with `.csv`,
   * tab-separated with `.tsv`, line-delimited JSON with the detected
   * extension, always on the physical path.
   */
  lemma TableBindingReaders(tablePath: string, env: Environment)
    ensures var path := PhysicalPath(tablePath, GetDataDir(env));
      var r := TableBinding(tablePath, env);
      && (GetFormat(tablePath) == Some(CSV) ==> r == ListingBinding(path, CSV_OPTIONS, env))
      && (GetFormat(tablePath) == Some(TSV) ==> r == ListingBinding(path, TSV_OPTIONS, env))
      && (GetFormat(tablePath).Some? && GetFormat(tablePath).value.NdJson? ==>
            r == ListingBinding(path, NdJsonReadOptions(GetFormat(tablePath).value.fileExtension), env))
      && (r.Ok? ==> r.value.path == path)
  {
    var path := PhysicalPath(tablePath, GetDataDir(env));
    match GetFormat(tablePath)
    case None =>
    case Some(format) =>
      assert TableBinding(tablePath, env) == FormatBinding(format, path, env);
      match format
      case CSV =>
      case TSV =>
      case JSON =>
      case NdJson(extension) =>
  }

  /** The per-request execution context and the tables registered in it. */
  class SessionContext {
    var tables: map<string, Binding>

    constructor ()
      ensures tables == map[]
    {
      tables := map[];
    }
  }

  /** The format dispatch of `register_table`, for a format already detected. */
  method RegisterFormat(ctx: SessionContext, tableRef: string, format: DataSourceFormat, path: string, env: Environment)
    returns (r: Result<(), Failure>)
    modifies ctx
    ensures FormatBinding(format, path, env).Ok? ==>
      r == Ok(()) && ctx.tables == old(ctx.tables)[tableRef := FormatBinding(format, path, env).value]
    ensures FormatBinding(format, path, env).Err? ==>
      r == Err(FormatBinding(format, path, env).error) && ctx.tables == old(ctx.tables)
  {
    var binding: Binding;
    match format {
      case CSV =>
        var listed := ListingBinding(path, CSV_OPTIONS, env);
        if listed.Err? {
          return Err(listed.error);
        }
        binding := listed.value;
      case TSV =>
        var listed := ListingBinding(path, TSV_OPTIONS, env);
        if listed.Err? {
          return Err(listed.error);
        }
        binding := listed.value;
      case JSON =>
        return Err(Raised(BadRequestError(JSON_UNSUPPORTED)));
      case NdJson(extension) =>
        var listed := ListingBinding(path, NdJsonReadOptions(extension), env);
        if listed.Err? {
          return Err(listed.error);
        }
        binding := listed.value;
      case XLSX =>
        var batch := FromFileToRecordBatch(path, env.workbooks);
        if batch.Err? {
          return Err(batch.error);
        }
        binding := MemoryTable(batch.value);
    }
    ctx.tables := ctx.tables[tableRef := binding];
    r := Ok(());
  }

  /** `register_table`. */
  method RegisterTable(ctx: SessionContext, tableRef: string, tablePath: string, env: Environment)
    returns (r: Result<(), Failure>)
    modifies ctx
    ensures TableBinding(tablePath, env).Ok? ==>
      r == Ok(()) && ctx.tables == old(ctx.tables)[tableRef := TableBinding(tablePath, env).value]
    ensures TableBinding(tablePath, env).Err? ==>
      r == Err(TableBinding(tablePath, env).error) && ctx.tables == old(ctx.tables)
  {
    var format := GetFormat(tablePath);
    var path := if IsRelativePath(tablePath) then GetDataDir(env) + PATH_SEPARATOR + tablePath else tablePath;
    if format.None? {
      return Err(Raised(UnprocessableEntityError(UNDETECTED_FORMAT)));
    }
    r := RegisterFormat(ctx, tableRef, format.value, path, env);
  }

  // ---------------------------------------------------------------------------
  // Binding every catalog row found.

  /** The tables bound so far and the failure that stopped the walk, if any. */
  datatype BindOutcome = BindOutcome(tables: map<string, Binding>, failure: Option<Failure>)

  /** The outcome of `register_table` for each item, in order. */
  function Bindings(items: seq<Cat.TableCatalog>, env: Environment): (results: seq<Result<Binding, Failure>>)
    ensures |results| == |items|
    ensures forall i :: 0 <= i < |items| ==> results[i] == TableBinding(items[i].tablePath, env)
  {
    seq(|items|, i requires 0 <= i < |items| => TableBinding(items[i].tablePath, env))
  }

  /** Registers the items in order, given each one's outcome; the first failure stops the walk. */
  function BindAll(tables: map<string, Binding>, items: seq<Cat.TableCatalog>, results: seq<Result<Binding, Failure>>): (r: BindOutcome)
    requires |results| == |items|
    ensures r.failure.None? <==> forall i :: 0 <= i < |results| ==> results[i].Ok?
    ensures r.failure.Some? ==>
      exists i :: 0 <= i < |results| && results[i] == Err(r.failure.value) && (forall j :: 0 <= j < i ==> results[j].Ok?)
    decreases |items|
  {
    if items == [] then BindOutcome(tables, None)
    else
      match results[0]
      case Err(f) => BindOutcome(tables, Some(f))
      case Ok(b) =>
        assert forall i :: 0 <= i < |results[1..]| ==> results[1..][i] == results[i + 1];
        BindAll(tables[items[0].tableName := b], items[1..], results[1..])
  }

  /** A walk without failure adds the items' names and keeps every other entry. */
  lemma {:induction false} BindAllFrame(tables: map<string, Binding>, items: seq<Cat.TableCatalog>, results: seq<Result<Binding, Failure>>)
    requires |results| == |items| && BindAll(tables, items, results).failure.None?
    ensures var bound := BindAll(tables, items, results).tables;
      && (forall x :: x in bound <==> x in tables || x in Cat.Names(items))
      && (forall x :: x in tables && x !in Cat.Names(items) ==> bound[x] == tables[x])
    decreases |items|
  {
    if items != [] {
      BindAllFrame(tables[items[0].tableName := results[0].value], items[1..], results[1..]);
      assert Cat.Names(items) == [items[0].tableName] + Cat.Names(items[1..]);
    }
  }

  /** A walk without failure binds each item's name to its outcome, when the names are distinct. */
  lemma {:induction false} BindAllBinds(tables: map<string, Binding>, items: seq<Cat.TableCatalog>, results: seq<Result<Binding, Failure>>)
    requires |results| == |items| && BindAll(tables, items, results).failure.None?
    requires forall i, j :: 0 <= i < j < |items| ==> items[i].tableName != items[j].tableName
    ensures var bound := BindAll(tables, items, results).tables;
      forall i :: 0 <= i < |items| ==> items[i].tableName in bound && results[i] == Ok(bound[items[i].tableName])
    decreases |items|
  {
    if items != [] {
      var rest := items[1..];
      var next := tables[items[0].tableName := results[0].value];
      assert forall i :: 0 <= i < |rest| ==> rest[i] == items[i + 1];
      BindAllBinds(next, rest, results[1..]);
      BindAllFrame(next, rest, results[1..]);
      forall k | 0 <= k < |rest| ensures Cat.Names(rest)[k] != items[0].tableName {
        assert rest[k] == items[k + 1];
      }
      assert forall i :: 0 < i < |items| ==> items[i] == rest[i - 1] && results[i] == results[1..][i - 1];
    }
  }

  method BindTables(ctx: SessionContext, items: seq<Cat.TableCatalog>, env: Environment) returns (failure: Option<Failure>)
    modifies ctx
    ensures BindOutcome(ctx.tables, failure) == BindAll(old(ctx.tables), items, Bindings(items, env))
  {
    ghost var results := Bindings(items, env);
    for i := 0 to |items|
      invariant BindAll(ctx.tables, items[i..], results[i..]) == BindAll(old(ctx.tables), items, results)
    {
      assert items[i..][1..] == items[i + 1..];
      assert results[i..][1..] == results[i + 1..];
      var bound := RegisterTable(ctx, items[i].tableName, items[i].tablePath, env);
      if bound.Err? {
        return Some(bound.error);
      }
    }
    assert items[|items|..] == [];
    failure := None;
  }

  // ---------------------------------------------------------------------------
  // Inline paths.

  /** The identifiers with no detected format, in order. */
  function CatalogNames(names: seq<string>): (r: seq<string>)
    ensures forall x :: x in r <==> x in names && GetFormat(x).None?
    decreases |names|
  {
    if names == [] then []
    else
      var last := names[|names| - 1];
      assert forall x :: x in names <==> x in names[..|names| - 1] || x == last;
      CatalogNames(names[..|names| - 1]) + (if GetFormat(last).None? then [last] else [])
  }

  /** The identifiers with a detected format, duplicates included, in order. */
  function InlinePaths(names: seq<string>): (r: seq<string>)
    ensures forall x :: x in r <==> x in names && GetFormat(x).Some?
    decreases |names|
  {
    if names == [] then []
    else
      var last := names[|names| - 1];
      assert forall x :: x in names <==> x in names[..|names| - 1] || x == last;
      InlinePaths(names[..|names| - 1]) + (if GetFormat(last).Some? then [last] else [])
  }

  /** Every identifier lands on exactly one side of the split. */
  lemma {:induction false} SplitCount(names: seq<string>)
    ensures |CatalogNames(names)| + |InlinePaths(names)| == |names|
    decreases |names|
  {
    if names != [] {
      SplitCount(names[..|names| - 1]);
    }
  }

  /** The inline paths with repeats dropped: each path once, at its first appearance. */
  function DistinctPaths(paths: seq<string>): (r: seq<string>)
    ensures forall x :: x in r <==> x in paths
    ensures forall i, j :: 0 <= i < j < |r| ==> r[i] != r[j]
    decreases |paths|
  {
    if paths == [] then []
    else
      var last := paths[|paths| - 1];
      var init := DistinctPaths(paths[..|paths| - 1]);
      assert forall x :: x in paths <==> x in paths[..|paths| - 1] || x == last;
      if last in init then init else init + [last]
  }

  /** A list without repeats is as long as the set of its members. */
  lemma {:induction false} DistinctCount(xs: seq<string>)
    requires forall i, j :: 0 <= i < j < |xs| ==> xs[i] != xs[j]
    ensures |xs| == |set x | x in xs|
    decreases |xs|
  {
    if xs != [] {
      var init, last := xs[..|xs| - 1], xs[|xs| - 1];
      DistinctCount(init);
      assert (set x | x in xs) == (set x | x in init) + {last};
    }
  }

  /**
   * The alias of the `k`-th inline path: the `k`-th clock reading in Unix
   * seconds and the generator's draws `4k` to `4k + 3`.
   */
  function Alias(k: nat, clock: nat -> nat, rng: nat -> nat): (alias: string)
    ensures |alias| >= 10 && alias[..5] == "temp_"
    ensures forall i :: |alias| - 4 <= i < |alias| ==> IsAsciiAlphanumeric(alias[i])
    ensures alias[|alias| - 5] == '_'
    ensures alias[5..|alias| - 5] == NatToString(clock(k))
  {
    var stamp := NatToString(clock(k));
    var suffix := GenerateRandomString(4, (j: nat) => rng(4 * k + j));
    var alias := "temp_" + stamp + "_" + suffix;
    assert forall i :: |alias| - 4 <= i < |alias| ==> alias[i] == suffix[i - (|alias| - 4)];
    alias
  }

  /** The alias's middle part reads back as the clock reading it was made from. */
  lemma AliasTimestamp(k: nat, clock: nat -> nat, rng: nat -> nat)
    ensures var alias := Alias(k, clock, rng);
      forall i :: 5 <= i < |alias| - 5 ==> IsDigit(alias[i])
    ensures var alias := Alias(k, clock, rng);
      ParseDecimal(alias[5..|alias| - 5]) == clock(k)
  {
    var alias := Alias(k, clock, rng);
    assert forall i :: 5 <= i < |alias| - 5 ==> alias[i] == alias[5..|alias| - 5][i - 5];
    ParseNatToString(clock(k));
  }

  function TempTables(paths: seq<string>, clock: nat -> nat, rng: nat -> nat): (temps: seq<Cat.TableCatalog>)
    ensures |temps| == |paths|
    ensures forall k :: 0 <= k < |paths| ==> temps[k] == Cat.TableCatalog(Alias(k, clock, rng), paths[k])
  {
    seq(|paths|, k requires 0 <= k < |paths| => Cat.TableCatalog(Alias(k, clock, rng), paths[k]))
  }

  lemma TempTablesSnoc(paths: seq<string>, path: string, clock: nat -> nat, rng: nat -> nat)
    ensures TempTables(paths + [path], clock, rng) == TempTables(paths, clock, rng) + [Cat.TableCatalog(Alias(|paths|, clock, rng), path)]
  {
    var longer := TempTables(paths + [path], clock, rng);
    var shorter := TempTables(paths, clock, rng);
    assert forall k :: 0 <= k < |paths| ==> longer[k] == shorter[k];
  }

  /** The TEMP row of an inline path: the path with every quote removed, no schema, no comment. */
  function TempRow(t: Cat.TableCatalog): (row: Cat.CatalogRow)
    ensures row.tableRef == t.tableName && row.kind == Cat.Temp
    ensures row.tableSchema.None? && row.tableComment.None?
    ensures row.tablePath == DeleteChar(t.tablePath, QUOTE) && QUOTE !in row.tablePath
  {
    ReplaceCharIsDelete(t.tablePath, QUOTE);
    Cat.CatalogRow(t.tableName, ReplaceAll(t.tablePath, [QUOTE], []), None, None, Cat.Temp)
  }

  /** The catalog after the TEMP inserts, the SQL as rewritten so far, and the insert error that stopped it. */
  datatype InsertOutcome = InsertOutcome(rows: map<string, Cat.CatalogRow>, sql: string, error: Option<string>)

  function InsertTemps(columns: seq<string>, rows: map<string, Cat.CatalogRow>, sql: string, temps: seq<Cat.TableCatalog>): InsertOutcome
    decreases |temps|
  {
    if temps == [] then InsertOutcome(rows, sql, None)
    else
      var inserted := Cat.Inserted(columns, rows, Cat.TEMP_INSERT_COLUMNS, TempRow(temps[0]));
      if inserted.0.Some? then InsertOutcome(rows, sql, inserted.0)
      else InsertTemps(columns, inserted.1, ReplaceAll(sql, temps[0].tablePath, temps[0].tableName), temps[1..])
  }

  /**
   * The SQL text once every inline path has been replaced by its alias: the
   * first path's occurrences are replaced, then the second's in the result,
   * and so on.
   */
  function Rewritten(sql: string, temps: seq<Cat.TableCatalog>): string
    decreases |temps|
  {
    if temps == [] then sql else Rewritten(ReplaceAll(sql, temps[0].tablePath, temps[0].tableName), temps[1..])
  }

  /** The inserts do not touch the SQL: a run of them that succeeds returns it rewritten for every inline path. */
  lemma {:induction false} InsertTempsRewrites(columns: seq<string>, rows: map<string, Cat.CatalogRow>, sql: string, temps: seq<Cat.TableCatalog>)
    ensures var ins := InsertTemps(columns, rows, sql, temps);
      ins.error.None? ==> ins.sql == Rewritten(sql, temps)
    decreases |temps|
  {
    if temps != [] {
      var inserted := Cat.Inserted(columns, rows, Cat.TEMP_INSERT_COLUMNS, TempRow(temps[0]));
      if inserted.0.None? {
        InsertTempsRewrites(columns, inserted.1, ReplaceAll(sql, temps[0].tablePath, temps[0].tableName), temps[1..]);
      }
    }
  }

  /** An inline path that does not occur in the SQL leaves it as it is, and so does a list of them. */
  lemma {:induction false} RewrittenAbsent(sql: string, temps: seq<Cat.TableCatalog>)
    requires forall k :: 0 <= k < |temps| ==> temps[k].tablePath != [] && !Occurs(sql, temps[k].tablePath)
    ensures Rewritten(sql, temps) == sql
    decreases |temps|
  {
    if temps != [] {
      assert ReplaceAll(sql, temps[0].tablePath, temps[0].tableName) == sql;
      assert forall k :: 0 <= k < |temps[1..]| ==> temps[1..][k] == temps[k + 1];
      RewrittenAbsent(sql, temps[1..]);
    }
  }

  /** The first inline path's leftmost occurrence becomes its alias, and its later occurrences are rewritten in turn. */
  lemma RewrittenFirstOccurrence(a: string, b: string, temps: seq<Cat.TableCatalog>)
    requires temps != [] && temps[0].tablePath != []
    requires var pat := temps[0].tablePath; !Occurs(a + pat[..|pat| - 1], pat)
    ensures Rewritten(a + temps[0].tablePath + b, temps)
      == Rewritten(a + temps[0].tableName + ReplaceAll(b, temps[0].tablePath, temps[0].tableName), temps[1..])
  {
    ReplaceFirstOccurrence(a, temps[0].tablePath, temps[0].tableName, b);
  }

  /** The catalog names first, then the aliases, each in order. */
  function BindList(names: seq<string>, temps: seq<Cat.TableCatalog>): seq<string> {
    CatalogNames(names) + Cat.Names(temps)
  }

  /** The catalog afterwards and the context's tables with the rewritten SQL, or the failure. */
  datatype ListingOutcome = ListingOutcome(rows: map<string, Cat.CatalogRow>, result: Result<(map<string, Binding>, string), Failure>)

  /** What `register_listing_table` does to the catalog and what it returns. */
  function ResolveListing(
    sql: string, parsed: Result<seq<Statement>, string>, columns: seq<string>, rows: map<string, Cat.CatalogRow>,
    env: Environment, clock: nat -> nat, rng: nat -> nat): ListingOutcome
  {
    match Parse.TableNames(sql, parsed)
    case Err(e) => ListingOutcome(rows, Err(Raised(e)))
    case Ok(names) => ResolveNames(sql, names, columns, rows, env, clock, rng)
  }

  /** Resolution once the identifiers are known. */
  function ResolveNames(
    sql: string, names: seq<string>, columns: seq<string>, rows: map<string, Cat.CatalogRow>,
    env: Environment, clock: nat -> nat, rng: nat -> nat): ListingOutcome
  {
    if names == [] then ListingOutcome(rows, Err(Raised(SqlError.ToException(SqlError.SqlSyntaxError(TABLE_NAME_EMPTY, sql)))))
    else
      var temps := TempTables(InlinePaths(names), clock, rng);
      var ins := InsertTemps(columns, rows, sql, temps);
      if ins.error.Some? then ListingOutcome(ins.rows, Err(Raised(FromForeign(ForeignError(Sqlite, ins.error.value)))))
      else
        var found := Cat.Lookup(ins.rows, BindList(names, temps));
        var bound := BindAll(map[], found, Bindings(found, env));
        if bound.failure.Some? then ListingOutcome(ins.rows, Err(bound.failure.value))
        else ListingOutcome(ins.rows, Ok((bound.tables, ins.sql)))
  }

  /** The classification pass: catalog names are collected, inline paths get their aliases. */
  method SplitNames(names: seq<string>, clock: nat -> nat, rng: nat -> nat)
    returns (tables: seq<string>, temps: seq<Cat.TableCatalog>)
    ensures tables == CatalogNames(names)
    ensures temps == TempTables(InlinePaths(names), clock, rng)
  {
    tables := [];
    temps := [];
    for i := 0 to |names|
      invariant tables == CatalogNames(names[..i])
      invariant temps == TempTables(InlinePaths(names[..i]), clock, rng)
    {
      assert names[..i + 1][..i] == names[..i];
      if GetFormat(names[i]).Some? {
        TempTablesSnoc(InlinePaths(names[..i]), names[i], clock, rng);
        temps := temps + [Cat.TableCatalog(Alias(|temps|, clock, rng), names[i])];
      } else {
        tables := tables + [names[i]];
      }
    }
    assert names[..|names|] == names;
  }

  /** The TEMP inserts and the rewrite, in inline-path order; the first failed insert stops both. */
  method InsertTempTables(catalog: Cat.Catalog, sql: string, temps: seq<Cat.TableCatalog>)
    returns (rewritten: string, error: Option<string>)
    requires catalog.Valid()
    modifies catalog
    ensures catalog.Valid()
    ensures InsertOutcome(catalog.rows, rewritten, error) == InsertTemps(catalog.columns, old(catalog.rows), sql, temps)
  {
    rewritten := sql;
    for i := 0 to |temps|
      invariant catalog.Valid()
      invariant InsertTemps(catalog.columns, catalog.rows, rewritten, temps[i..]) == InsertTemps(catalog.columns, old(catalog.rows), sql, temps)
    {
      assert temps[i..][1..] == temps[i + 1..];
      var failed := catalog.Insert(Cat.TEMP_INSERT_COLUMNS, TempRow(temps[i]));
      if failed.Some? {
        return rewritten, failed;
      }
      rewritten := ReplaceAll(rewritten, temps[i].tablePath, temps[i].tableName);
    }
    assert temps[|temps|..] == [];
    error := None;
  }

  /** `register_listing_table`. */
  method RegisterListingTable(
    sql: string, parsed: Result<seq<Statement>, string>, catalog: Cat.Catalog,
    env: Environment, clock: nat -> nat, rng: nat -> nat)
    returns (r: Result<(SessionContext, string), Failure>)
    requires catalog.Valid()
    modifies catalog
    ensures catalog.Valid()
    ensures var o := ResolveListing(sql, parsed, catalog.columns, old(catalog.rows), env, clock, rng);
      && catalog.rows == o.rows
      && r.Ok? == o.result.Ok?
      && (r.Err? ==> r.error == o.result.error)
      && (r.Ok? ==> r.value.0.tables == o.result.value.0 && r.value.1 == o.result.value.1)
    ensures r.Ok? ==> fresh(r.value.0)
  {
    var names := Parse.GetTableNames(sql, parsed);
    if names.Err? {
      return Err(Raised(names.error));
    }
    r := RegisterNames(sql, names.value, catalog, env, clock, rng);
  }

  method RegisterNames(
    sql: string, names: seq<string>, catalog: Cat.Catalog,
    env: Environment, clock: nat -> nat, rng: nat -> nat)
    returns (r: Result<(SessionContext, string), Failure>)
    requires catalog.Valid()
    modifies catalog
    ensures catalog.Valid()
    ensures var o := ResolveNames(sql, names, catalog.columns, old(catalog.rows), env, clock, rng);
      && catalog.rows == o.rows
      && r.Ok? == o.result.Ok?
      && (r.Err? ==> r.error == o.result.error)
      && (r.Ok? ==> r.value.0.tables == o.result.value.0 && r.value.1 == o.result.value.1)
    ensures r.Ok? ==> fresh(r.value.0)
  {
    if names == [] {
      return Err(Raised(SqlError.ToException(SqlError.SqlSyntaxError(TABLE_NAME_EMPTY, sql))));
    }
    var ctx := new SessionContext();
    var tables, temps := SplitNames(names, clock, rng);
    var rewritten, failed := InsertTempTables(catalog, sql, temps);
    if failed.Some? {
      return Err(Raised(FromForeign(ForeignError(Sqlite, failed.value))));
    }
    var found := Cat.Lookup(catalog.rows, tables + Cat.Names(temps));
    var failure := BindTables(ctx, found, env);
    if failure.Some? {
      return Err(failure.value);
    }
    r := Ok((ctx, rewritten));
  }

  // ---------------------------------------------------------------------------
  // Properties of resolution.

  /** A parse failure or an empty identifier list fails before any catalog insert. */
  lemma FailureBeforeInsert(
    sql: string, parsed: Result<seq<Statement>, string>, columns: seq<string>, rows: map<string, Cat.CatalogRow>,
    env: Environment, clock: nat -> nat, rng: nat -> nat)
    requires Parse.TableNames(sql, parsed).Err? || Parse.TableNames(sql, parsed) == Ok([])
    ensures var o := ResolveListing(sql, parsed, columns, rows, env, clock, rng);
      && o.rows == rows
      && (Parse.TableNames(sql, parsed).Err? ==> o.result == Err(Raised(Parse.TableNames(sql, parsed).error)))
      && (Parse.TableNames(sql, parsed) == Ok([]) ==>
            o.result == Err(Raised(BadRequest(SqlError.Display(SqlError.SqlSyntax(sql, TABLE_NAME_EMPTY))))))
  {
  }

  /** Every identifier goes to the bind list exactly once: as itself, or as its alias. */
  lemma BindListLength(names: seq<string>, clock: nat -> nat, rng: nat -> nat)
    ensures |BindList(names, TempTables(InlinePaths(names), clock, rng))| == |names|
  {
    SplitCount(names);
  }

  lemma FirstCharOfSuffix(t: string, suffix: string)
    requires suffix != []
    ensures EndsWith(t, suffix) ==> t[|t| - |suffix|] == suffix[0]
  {
    if EndsWith(t, suffix) {
      assert t[|t| - |suffix|..][0] == t[|t| - |suffix|];
    }
  }

  /** An alias is never mistaken for an inline path, so it is looked up as a catalog name. */
  lemma AliasIsCatalogName(k: nat, clock: nat -> nat, rng: nat -> nat)
    ensures GetFormat(Alias(k, clock, rng)) == None
  {
    var alias := Alias(k, clock, rng);
    AlphanumericTailIsCatalogName(alias);
  }

  lemma AlphanumericTailIsCatalogName(alias: string)
    requires |alias| >= 5
    requires forall i :: |alias| - 4 <= i < |alias| ==> IsAsciiAlphanumeric(alias[i])
    requires alias[|alias| - 5] == '_'
    ensures GetFormat(alias) == None
  {
    assert TrimEndMatches(alias, QUOTE) == alias by {
      assert IsAsciiAlphanumeric(alias[|alias| - 1]);
    }
    assert IsAsciiAlphanumeric(alias[|alias| - 4]);
    FirstCharOfSuffix(alias, ".csv");
    FirstCharOfSuffix(alias, ".json");
    FirstCharOfSuffix(alias, ".log");
    FirstCharOfSuffix(alias, ".txt");
    FirstCharOfSuffix(alias, ".tsv");
  }

  /**
   * With a catalog that accepts the TEMP insert and aliases that are fresh
   * and pairwise distinct, every inline path adds exactly its TEMP row and
   * nothing else changes.
   */
  lemma {:induction false} InsertTempsAddsRows(columns: seq<string>, rows: map<string, Cat.CatalogRow>, sql: string, temps: seq<Cat.TableCatalog>)
    requires Cat.MissingColumn(columns, Cat.TEMP_INSERT_COLUMNS).None?
    requires forall k :: 0 <= k < |temps| ==> temps[k].tableName !in rows
    requires forall i, j :: 0 <= i < j < |temps| ==> temps[i].tableName != temps[j].tableName
    ensures var ins := InsertTemps(columns, rows, sql, temps);
      && ins.error.None?
      && |ins.rows| == |rows| + |temps|
      && (forall x :: x in rows ==> x in ins.rows && ins.rows[x] == rows[x])
      && (forall k :: 0 <= k < |temps| ==> temps[k].tableName in ins.rows && ins.rows[temps[k].tableName] == TempRow(temps[k]))
    decreases |temps|
  {
    if temps != [] {
      var next, sql' := InsertTempsStep(columns, rows, sql, temps);
      var rest := temps[1..];
      forall k | 0 <= k < |rest|
        ensures rest[k].tableName !in next
      {
        assert rest[k] == temps[k + 1];
      }
      forall i, j | 0 <= i < j < |rest|
        ensures rest[i].tableName != rest[j].tableName
      {
        assert rest[i] == temps[i + 1] && rest[j] == temps[j + 1];
      }
      InsertTempsAddsRows(columns, next, sql', rest);
      var after := InsertTemps(columns, next, sql', rest).rows;
      forall k | 0 <= k < |temps|
        ensures temps[k].tableName in after && after[temps[k].tableName] == TempRow(temps[k])
      {
        if k > 0 {
          assert temps[k] == rest[k - 1];
        }
      }
    }
  }

  /**
   * As written, a path named twice gets two aliases and two TEMP rows for
   * the same file, although the query names one distinct path;
   * `InlineTwice` shows that `[p, p]` is such a list.
   */
  lemma DuplicatePathAddsTwoRows(
    sql: string, names: seq<string>, p: string, columns: seq<string>, rows: map<string, Cat.CatalogRow>,
    env: Environment, clock: nat -> nat, rng: nat -> nat)
    requires names != [] && InlinePaths(names) == [p, p] && Cat.MissingColumn(columns, Cat.TEMP_INSERT_COLUMNS).None?
    requires var t := TempTables(InlinePaths(names), clock, rng);
      t[0].tableName !in rows && t[1].tableName !in rows && t[0].tableName != t[1].tableName
    ensures |set x | x in InlinePaths(names)| == 1
    ensures var t := TempTables(InlinePaths(names), clock, rng);
      var after := ResolveNames(sql, names, columns, rows, env, clock, rng).rows;
      && |after| == |rows| + 2
      && t[0].tablePath == p && t[0].tableName in after && after[t[0].tableName] == TempRow(t[0])
      && t[1].tablePath == p && t[1].tableName in after && after[t[1].tableName] == TempRow(t[1])
  {
    var t := TempTables(InlinePaths(names), clock, rng);
    assert (set x | x in [p, p]) == {p};
    ResolvedRows(sql, names, columns, rows, env, clock, rng);
    TwoTempRowsAdded(columns, rows, sql, t);
  }

  /** A path named twice is listed twice among the inline paths. */
  lemma InlineTwice(p: string)
    requires GetFormat(p).Some?
    ensures InlinePaths([p, p]) == [p, p]
  {
    assert [p][..0] == [] && InlinePaths([]) == [];
    assert InlinePaths([p]) == [p];
    assert [p, p][..1] == [p];
    assert InlinePaths([p, p]) == [p] + [p];
  }

  lemma TwoTempRowsAdded(columns: seq<string>, rows: map<string, Cat.CatalogRow>, sql: string, t: seq<Cat.TableCatalog>)
    requires Cat.MissingColumn(columns, Cat.TEMP_INSERT_COLUMNS).None?
    requires |t| == 2 && t[0].tableName !in rows && t[1].tableName !in rows && t[0].tableName != t[1].tableName
    ensures var after := InsertTemps(columns, rows, sql, t).rows;
      && |after| == |rows| + 2
      && t[0].tableName in after && after[t[0].tableName] == TempRow(t[0])
      && t[1].tableName in after && after[t[1].tableName] == TempRow(t[1])
  {
    InsertTempsAddsRows(columns, rows, sql, t);
  }

  /** The intended alias list: one alias per distinct inline path, in first-appearance order. */
  function DistinctTempTables(names: seq<string>, clock: nat -> nat, rng: nat -> nat): seq<Cat.TableCatalog> {
    TempTables(DistinctPaths(InlinePaths(names)), clock, rng)
  }

  /** Every distinct inline path has exactly one alias in the intended list, and nothing else has one. */
  lemma DistinctTempTablesCover(names: seq<string>, clock: nat -> nat, rng: nat -> nat)
    ensures var temps := DistinctTempTables(names, clock, rng);
      && |temps| == |set x | x in InlinePaths(names)|
      && (forall x :: x in InlinePaths(names) <==> exists k :: 0 <= k < |temps| && temps[k].tablePath == x)
      && (forall i, j :: 0 <= i < j < |temps| ==> temps[i].tablePath != temps[j].tablePath)
  {
    var paths := DistinctPaths(InlinePaths(names));
    DistinctCount(paths);
    assert (set x | x in paths) == (set x | x in InlinePaths(names));
    TempTablesCover(paths, clock, rng);
  }

  lemma TempTablesCover(paths: seq<string>, clock: nat -> nat, rng: nat -> nat)
    ensures var temps := TempTables(paths, clock, rng);
      forall x :: x in paths <==> exists k :: 0 <= k < |temps| && temps[k].tablePath == x
  {
    var temps := TempTables(paths, clock, rng);
    forall x | x in paths
      ensures exists k :: 0 <= k < |temps| && temps[k].tablePath == x
    {
      var k :| 0 <= k < |paths| && paths[k] == x;
      assert temps[k].tablePath == x;
    }
  }

  /**
   * With the intended alias list, the inserts add exactly one TEMP row per
   * distinct inline path, however often the query names it.
   */
  lemma DistinctPathsAddOneRowEach(
    sql: string, names: seq<string>, columns: seq<string>, rows: map<string, Cat.CatalogRow>,
    clock: nat -> nat, rng: nat -> nat)
    requires Cat.MissingColumn(columns, Cat.TEMP_INSERT_COLUMNS).None?
    requires var temps := DistinctTempTables(names, clock, rng);
      && (forall k :: 0 <= k < |temps| ==> temps[k].tableName !in rows)
      && (forall i, j :: 0 <= i < j < |temps| ==> temps[i].tableName != temps[j].tableName)
    ensures var temps := DistinctTempTables(names, clock, rng);
      var ins := InsertTemps(columns, rows, sql, temps);
      && ins.error.None?
      && |ins.rows| == |rows| + |set x | x in InlinePaths(names)|
      && (forall x :: x in rows ==> x in ins.rows && ins.rows[x] == rows[x])
      && (forall x :: x in InlinePaths(names) ==>
            exists k :: 0 <= k < |temps| && temps[k].tablePath == x && temps[k].tableName in ins.rows && ins.rows[temps[k].tableName] == TempRow(temps[k]))
  {
    var temps := DistinctTempTables(names, clock, rng);
    DistinctTempTablesCover(names, clock, rng);
    InsertTempsAddsRows(columns, rows, sql, temps);
  }

  /** A first TEMP insert that the catalog accepts adds its row, and the rest goes on from there. */
  lemma InsertTempsStep(columns: seq<string>, rows: map<string, Cat.CatalogRow>, sql: string, temps: seq<Cat.TableCatalog>)
    returns (next: map<string, Cat.CatalogRow>, sql': string)
    requires Cat.MissingColumn(columns, Cat.TEMP_INSERT_COLUMNS).None?
    requires temps != [] && temps[0].tableName !in rows
    ensures next == rows[temps[0].tableName := TempRow(temps[0])] && |next| == |rows| + 1
    ensures sql' == ReplaceAll(sql, temps[0].tablePath, temps[0].tableName)
    ensures InsertTemps(columns, rows, sql, temps) == InsertTemps(columns, next, sql', temps[1..])
  {
    next := rows[temps[0].tableName := TempRow(temps[0])];
    sql' := ReplaceAll(sql, temps[0].tablePath, temps[0].tableName);
  }

  /** Whatever happens, resolution only adds TEMP rows, and their paths carry no quote. */
  lemma {:induction false} InsertTempsOnlyAddsTempRows(columns: seq<string>, rows: map<string, Cat.CatalogRow>, sql: string, temps: seq<Cat.TableCatalog>)
    ensures var after := InsertTemps(columns, rows, sql, temps).rows;
      forall x :: x in after ==>
        (x in rows && after[x] == rows[x]) || (after[x].kind == Cat.Temp && QUOTE !in after[x].tablePath)
    decreases |temps|
  {
    if temps != [] {
      var inserted := Cat.Inserted(columns, rows, Cat.TEMP_INSERT_COLUMNS, TempRow(temps[0]));
      if inserted.0.None? {
        InsertTempsOnlyAddsTempRows(columns, inserted.1, ReplaceAll(sql, temps[0].tablePath, temps[0].tableName), temps[1..]);
      }
    }
  }

  /** No inline path: the catalog is untouched and the SQL text is returned as given. */
  lemma NoInlinePathKeepsSqlAndCatalog(
    sql: string, names: seq<string>, columns: seq<string>, rows: map<string, Cat.CatalogRow>,
    env: Environment, clock: nat -> nat, rng: nat -> nat)
    requires names != [] && InlinePaths(names) == []
    ensures var o := ResolveNames(sql, names, columns, rows, env, clock, rng);
      o.rows == rows && (o.result.Ok? ==> o.result.value.1 == sql)
  {
    var temps := TempTables(InlinePaths(names), clock, rng);
    assert temps == [];
    assert InsertTemps(columns, rows, sql, temps) == InsertOutcome(rows, sql, None);
    ResolvedRows(sql, names, columns, rows, env, clock, rng);
    if ResolveNames(sql, names, columns, rows, env, clock, rng).result.Ok? {
      ResolvedSqlIsRewritten(sql, names, columns, rows, env, clock, rng);
    }
  }

  /** Whatever the outcome, the catalog afterwards is the one the TEMP inserts leave. */
  lemma ResolvedRows(
    sql: string, names: seq<string>, columns: seq<string>, rows: map<string, Cat.CatalogRow>,
    env: Environment, clock: nat -> nat, rng: nat -> nat)
    requires names != []
    ensures ResolveNames(sql, names, columns, rows, env, clock, rng).rows
      == InsertTemps(columns, rows, sql, TempTables(InlinePaths(names), clock, rng)).rows
  {
  }

  /** The SQL a successful resolution returns is the query with each inline path rewritten to its alias, in order. */
  lemma ResolvedSqlIsRewritten(
    sql: string, names: seq<string>, columns: seq<string>, rows: map<string, Cat.CatalogRow>,
    env: Environment, clock: nat -> nat, rng: nat -> nat)
    requires ResolveNames(sql, names, columns, rows, env, clock, rng).result.Ok?
    ensures ResolveNames(sql, names, columns, rows, env, clock, rng).result.value.1
      == Rewritten(sql, TempTables(InlinePaths(names), clock, rng))
  {
    var temps, ins, found := ResolvedSteps(sql, names, columns, rows, env, clock, rng);
    InsertTempsRewrites(columns, rows, sql, temps);
  }

  /** The intermediate values of a successful resolution. */
  lemma ResolvedSteps(
    sql: string, names: seq<string>, columns: seq<string>, rows: map<string, Cat.CatalogRow>,
    env: Environment, clock: nat -> nat, rng: nat -> nat)
    returns (temps: seq<Cat.TableCatalog>, ins: InsertOutcome, found: seq<Cat.TableCatalog>)
    requires ResolveNames(sql, names, columns, rows, env, clock, rng).result.Ok?
    ensures temps == TempTables(InlinePaths(names), clock, rng)
    ensures ins == InsertTemps(columns, rows, sql, temps) && ins.error.None?
    ensures found == Cat.Lookup(ins.rows, BindList(names, temps))
    ensures BindAll(map[], found, Bindings(found, env)).failure.None?
    ensures ResolveNames(sql, names, columns, rows, env, clock, rng)
      == ListingOutcome(ins.rows, Ok((BindAll(map[], found, Bindings(found, env)).tables, ins.sql)))
  {
    temps := TempTables(InlinePaths(names), clock, rng);
    ins := InsertTemps(columns, rows, sql, temps);
    found := Cat.Lookup(ins.rows, BindList(names, temps));
  }

  /** Catalog names never touch the SQL: when no inline path's text occurs in it, it is returned as given. */
  lemma UnmentionedPathsKeepSql(
    sql: string, names: seq<string>, columns: seq<string>, rows: map<string, Cat.CatalogRow>,
    env: Environment, clock: nat -> nat, rng: nat -> nat)
    requires forall x :: x in InlinePaths(names) ==> !Occurs(sql, x)
    ensures var o := ResolveNames(sql, names, columns, rows, env, clock, rng);
      o.result.Ok? ==> o.result.value.1 == sql
  {
    if ResolveNames(sql, names, columns, rows, env, clock, rng).result.Ok? {
      var paths := InlinePaths(names);
      var temps := TempTables(paths, clock, rng);
      forall k | 0 <= k < |temps|
        ensures temps[k].tablePath != [] && !Occurs(sql, temps[k].tablePath)
      {
        assert temps[k].tablePath == paths[k] && paths[k] in paths;
      }
      RewrittenAbsent(sql, temps);
      ResolvedSqlIsRewritten(sql, names, columns, rows, env, clock, rng);
    }
  }

  /**
   * With the `init_db` columns, any query naming an inline path fails at its
   * first TEMP insert and leaves the catalog as it was.
   */
  lemma InlinePathRejectedAsWritten(
    sql: string, names: seq<string>, rows: map<string, Cat.CatalogRow>,
    env: Environment, clock: nat -> nat, rng: nat -> nat)
    requires InlinePaths(names) != []
    ensures ResolveNames(sql, names, Cat.INIT_DB_COLUMNS, rows, env, clock, rng)
      == ListingOutcome(rows, Err(Raised(BadRequest(Cat.NoSuchColumn("type")))))
  {
    var temps := TempTables(InlinePaths(names), clock, rng);
    Cat.TempInsertRejectedAsWritten(rows, TempRow(temps[0]));
  }

  /** Binding the rows a lookup finds: the context holds exactly the listed names that have a catalog row. */
  lemma LookupThenBindKeys(rows: map<string, Cat.CatalogRow>, bindList: seq<string>, results: seq<Result<Binding, Failure>>)
    requires var found := Cat.Lookup(rows, bindList); |results| == |found| && BindAll(map[], found, results).failure.None?
    ensures var found := Cat.Lookup(rows, bindList);
      forall x :: x in BindAll(map[], found, results).tables <==> x in bindList && x in rows
  {
    var found := Cat.Lookup(rows, bindList);
    BindAllFrame(map[], found, results);
    forall x | x in bindList && x in rows
      ensures x in Cat.Names(found)
    {
      var i :| 0 <= i < |found| && found[i].tableName == x;
      assert Cat.Names(found)[i] == x;
    }
  }

  /**
   * Binding distinct catalog rows, each by some rule applied to its stored
   * path: every name bound is a catalog name, bound by that rule to its path.
   */
  lemma BindFoundRows(
    rows: map<string, Cat.CatalogRow>, found: seq<Cat.TableCatalog>,
    bind: string -> Result<Binding, Failure>, results: seq<Result<Binding, Failure>>)
    requires |results| == |found| && BindAll(map[], found, results).failure.None?
    requires forall i :: 0 <= i < |found| ==> results[i] == bind(found[i].tablePath)
    requires forall i :: 0 <= i < |found| ==> found[i].tableName in rows && found[i].tablePath == rows[found[i].tableName].tablePath
    requires forall i, j :: 0 <= i < j < |found| ==> found[i].tableName != found[j].tableName
    ensures var tables := BindAll(map[], found, results).tables;
      forall x :: x in tables ==> x in rows && bind(rows[x].tablePath) == Ok(tables[x])
  {
    BindAllFrame(map[], found, results);
    BindAllBinds(map[], found, results);
    var tables := BindAll(map[], found, results).tables;
    forall x | x in tables
      ensures x in rows && bind(rows[x].tablePath) == Ok(tables[x])
    {
      var i :| 0 <= i < |found| && Cat.Names(found)[i] == x;
    }
  }

  /** Each name bound after a lookup is bound as `register_table` binds its stored path. */
  lemma LookupThenBindValues(rows: map<string, Cat.CatalogRow>, bindList: seq<string>, env: Environment)
    requires var found := Cat.Lookup(rows, bindList); BindAll(map[], found, Bindings(found, env)).failure.None?
    ensures var found := Cat.Lookup(rows, bindList);
      var tables := BindAll(map[], found, Bindings(found, env)).tables;
      forall x :: x in tables ==> x in rows && TableBinding(rows[x].tablePath, env) == Ok(tables[x])
  {
    var found := Cat.Lookup(rows, bindList);
    BindFoundRows(rows, found, p => TableBinding(p, env), Bindings(found, env));
  }

  /**
   * On success the context holds exactly the bind-list names that have a
   * catalog row (the others are skipped silently), each bound as
   * `register_table` binds its stored path.
   */
  lemma BoundTablesAreFoundRows(
    sql: string, names: seq<string>, columns: seq<string>, rows: map<string, Cat.CatalogRow>,
    env: Environment, clock: nat -> nat, rng: nat -> nat)
    requires ResolveNames(sql, names, columns, rows, env, clock, rng).result.Ok?
    ensures var o := ResolveNames(sql, names, columns, rows, env, clock, rng);
      var bindList := BindList(names, TempTables(InlinePaths(names), clock, rng));
      var tables := o.result.value.0;
      && (forall x :: x in tables <==> x in bindList && x in o.rows)
      && (forall x :: x in tables ==> TableBinding(o.rows[x].tablePath, env) == Ok(tables[x]))
  {
    var temps, ins, found := ResolvedSteps(sql, names, columns, rows, env, clock, rng);
    LookupThenBindKeys(ins.rows, BindList(names, temps), Bindings(found, env));
    LookupThenBindValues(ins.rows, BindList(names, temps), env);
  }
}
