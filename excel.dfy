/**
 * Spreadsheet ingestion (src/data_source/excel.rs): the workbook files a
 * path names are read sheet by sheet into one column-oriented batch whose
 * schema comes from the header row of the first file.
 */
module Excel {
  import opened Wrappers
  import opened HttpError

  /** The kinds of cell value a workbook reader distinguishes. */
  datatype CellKind =
    | IntCell | FloatCell | StringCell | BoolCell | DateTimeCell
    | DateTimeIsoCell | DurationIsoCell | ErrorCell | EmptyCell

  /** A cell: its kind and its display text (`to_string`). */
  datatype Cell = Cell(kind: CellKind, text: string)

  /** The column types a batch can declare. */
  datatype ArrowDataType = Utf8 | Int32 | Int64 | Float64 | TimestampNanosecond

  datatype Field = Field(name: string, dataType: ArrowDataType, nullable: bool)

  /** A worksheet range, row by row; row 0 is the header. */
  type Range = seq<seq<Cell>>

  /** An opened workbook: its sheet names in workbook order and the range of each sheet. */
  datatype Workbook = Workbook(sheetNames: seq<string>, worksheets: map<string, Range>)

  /**
   * The file system as the ingestion sees it: the files a path pattern
   * finds, and the workbook each file opens to.
   */
  datatype WorkbookStore = WorkbookStore(
    findFiles: string -> Result<seq<string>, Exception>,
    openWorkbook: string -> Result<Workbook, Exception>)

  /**
   * A column of the batch. Strings keep the cells' display text; the numeric
   * columns keep the cells they were built from.
   */
  datatype ArrowArray =
    | StringArray(strings: seq<string>)
    | Int64Array(ints: seq<Cell>)
    | Float64Array(floats: seq<Cell>)
    | TimestampArray(timestamps: seq<Cell>)
  {
    function Length(): nat {
      match this
      case StringArray(s) => |s|
      case Int64Array(c) => |c|
      case Float64Array(c) => |c|
      case TimestampArray(c) => |c|
    }
  }

  datatype RecordBatch = RecordBatch(schema: seq<Field>, columns: seq<ArrowArray>)

  /** How ingestion ends when it does not produce a batch: a returned error, or a panic. */
  datatype Failure = Raised(exception: Exception) | Panicked(reason: string)

  const SELECTOR_MARK: char := '#'
  const SHEETS_NOT_FOUND := "Sheets not found"
  const HEADER_NOT_FOUND := "Header not found"
  const UNWRAP_NONE := "called `Option::unwrap()` on a `None` value"
  const NOT_IMPLEMENTED := "not implemented"
  const NO_COLUMNS := "Invalid argument error: must either specify a row count or at least one column"
  const UNEQUAL_LENGTHS := "Invalid argument error: all columns in a record batch must have the same length"

  // ---------------------------------------------------------------------------
  // Sheet selection and the header.

  function FirstIndexOf(s: string, c: char): (r: Option<nat>)
    ensures r.None? <==> c !in s
    ensures r.Some? ==> r.value < |s| && s[r.value] == c && c !in s[..r.value]
  {
    if s == [] then None
    else if s[0] == c then Some(0)
    else
      match FirstIndexOf(s[1..], c)
      case None => None
      case Some(k) =>
        assert s[..k + 1] == [s[0]] + s[1..][..k];
        Some(k + 1)
  }

  /** A path splits at its first `#`; the selector keeps the `#`. */
  function SplitSelector(filePath: string): (r: (string, Option<string>))
    ensures SELECTOR_MARK !in filePath <==> r == (filePath, None)
    ensures r.1.Some? ==>
      && r.0 + r.1.value == filePath
      && SELECTOR_MARK !in r.0
      && |r.1.value| > 0 && r.1.value[0] == SELECTOR_MARK
  {
    match FirstIndexOf(filePath, SELECTOR_MARK)
    case None => (filePath, None)
    case Some(k) =>
      assert filePath[..k] + filePath[k..] == filePath;
      (filePath[..k], Some(filePath[k..]))
  }

  /** The sheet read from a workbook: the selector as given, else the first sheet. */
  function ChooseSheet(selector: Option<string>, workbook: Workbook): (r: Result<string, Exception>)
    ensures selector.Some? ==> r == Ok(selector.value)
    ensures selector.None? && workbook.sheetNames == [] ==> r == Err(UnprocessableEntityError(SHEETS_NOT_FOUND))
    ensures selector.None? && workbook.sheetNames != [] ==> r == Ok(workbook.sheetNames[0])
  {
    match selector
    case Some(s) => Ok(s)
    case None =>
      if workbook.sheetNames == [] then Err(UnprocessableEntityError(SHEETS_NOT_FOUND))
      else Ok(workbook.sheetNames[0])
  }

  /** The reader's error for a missing sheet carries the sheet's name. */
  function WorksheetRange(workbook: Workbook, sheet: string): (r: Result<Range, Exception>)
    ensures r.Ok? <==> sheet in workbook.worksheets
    ensures r.Ok? ==> r.value == workbook.worksheets[sheet]
    ensures r.Err? ==> r.error == FromForeign(ForeignError(Xlsx, sheet))
  {
    if sheet in workbook.worksheets then Ok(workbook.worksheets[sheet])
    else Err(FromForeign(ForeignError(Xlsx, sheet)))
  }

  /** The column type a header cell declares. */
  function DetermineDataType(cell: Cell): (t: ArrowDataType)
    ensures t == Int32 <==> cell.kind == IntCell
    ensures t == Float64 <==> cell.kind == FloatCell
    ensures t == TimestampNanosecond <==> cell.kind == DateTimeCell
    ensures t == Utf8 <==> cell.kind !in {IntCell, FloatCell, DateTimeCell}
  {
    match cell.kind
    case StringCell => Utf8
    case FloatCell => Float64
    case IntCell => Int32
    case DateTimeCell => TimestampNanosecond
    case _ => Utf8
  }

  /** One nullable field per cell of row 0, named by the cell's text. */
  function HeaderSchema(r: Range): (res: Result<seq<Field>, Exception>)
    ensures res.Err? <==> r == []
    ensures res.Err? ==> res.error == UnprocessableEntityError(HEADER_NOT_FOUND)
    ensures res.Ok? ==> |res.value| == |r[0]|
    ensures res.Ok? ==> forall i :: 0 <= i < |r[0]| ==>
      res.value[i] == Field(r[0][i].text, DetermineDataType(r[0][i]), true)
  {
    if r == [] then Err(UnprocessableEntityError(HEADER_NOT_FOUND))
    else Ok(seq(|r[0]|, i requires 0 <= i < |r[0]| => Field(r[0][i].text, DetermineDataType(r[0][i]), true)))
  }

  // ---------------------------------------------------------------------------
  // Column buffers.

  /** Cell `k` of a row goes to column `k`; a row wider than the buffers panics. */
  function AppendRow(records: seq<seq<Cell>>, row: seq<Cell>): (r: Result<seq<seq<Cell>>, Failure>)
    ensures r.Err? <==> |row| > |records|
    ensures r.Err? ==> r.error == Panicked(UNWRAP_NONE)
    ensures r.Ok? ==> |r.value| == |records|
    ensures r.Ok? ==> forall k :: 0 <= k < |records| ==>
      r.value[k] == records[k] + (if k < |row| then [row[k]] else [])
  {
    if |row| > |records| then Err(Panicked(UNWRAP_NONE))
    else Ok(seq(|records|, k requires 0 <= k < |records| => records[k] + (if k < |row| then [row[k]] else [])))
  }

  function AppendRows(records: seq<seq<Cell>>, rows: seq<seq<Cell>>): Result<seq<seq<Cell>>, Failure>
    decreases |rows|
  {
    if rows == [] then Ok(records)
    else
      match AppendRow(records, rows[0])
      case Err(f) => Err(f)
      case Ok(next) => AppendRows(next, rows[1..])
  }

  /** The cells at position `k` of the rows, in row order. */
  function ColumnOf(rows: seq<seq<Cell>>, k: nat): seq<Cell>
    decreases |rows|
  {
    if rows == [] then [] else (if k < |rows[0]| then [rows[0][k]] else []) + ColumnOf(rows[1..], k)
  }

  /** Row-major data ends up column-major: column `k` gains exactly the `k`-th cells, in row order. */
  lemma {:induction false} AppendRowsTransposes(records: seq<seq<Cell>>, rows: seq<seq<Cell>>, k: nat)
    requires AppendRows(records, rows).Ok?
    requires k < |records|
    ensures |AppendRows(records, rows).value| == |records|
    ensures AppendRows(records, rows).value[k] == records[k] + ColumnOf(rows, k)
    decreases |rows|
  {
    if rows != [] {
      var next := AppendRow(records, rows[0]).value;
      AppendRowsTransposes(next, rows[1..], k);
    }
  }

  /** Buffering fails exactly when some row is wider than the header. */
  lemma {:induction false} AppendRowsFailsOnWideRow(records: seq<seq<Cell>>, rows: seq<seq<Cell>>)
    ensures AppendRows(records, rows).Err? <==> exists j :: 0 <= j < |rows| && |rows[j]| > |records|
    ensures AppendRows(records, rows).Err? ==> AppendRows(records, rows).error == Panicked(UNWRAP_NONE)
    decreases |rows|
  {
    if rows != [] {
      var first := AppendRow(records, rows[0]);
      if first.Ok? {
        AppendRowsFailsOnWideRow(first.value, rows[1..]);
        if exists j :: 0 <= j < |rows| && |rows[j]| > |records| {
          var j :| 0 <= j < |rows| && |rows[j]| > |records|;
          assert rows[1..][j - 1] == rows[j];
        }
        forall j | 0 <= j < |rows[1..]| && |rows[1..][j]| > |records|
          ensures exists i :: 0 <= i < |rows| && |rows[i]| > |records|
        {
          assert rows[j + 1] == rows[1..][j];
        }
      }
    }
  }

  method AppendRowTo(records: seq<seq<Cell>>, row: seq<Cell>) returns (r: Result<seq<seq<Cell>>, Failure>)
    ensures r == AppendRow(records, row)
  {
    var columns := records;
    for i := 0 to |row|
      invariant |columns| == |records|
      invariant i <= |records|
      invariant forall k :: 0 <= k < |records| ==> columns[k] == records[k] + (if k < i then [row[k]] else [])
    {
      if i >= |columns| {
        return Err(Panicked(UNWRAP_NONE));
      }
      columns := columns[i := columns[i] + [row[i]]];
    }
    ghost var expected := AppendRow(records, row);
    assert expected.Ok?;
    assert forall k :: 0 <= k < |records| ==> columns[k] == expected.value[k];
    assert columns == expected.value;
    r := Ok(columns);
  }

  method AppendRowsTo(records: seq<seq<Cell>>, rows: seq<seq<Cell>>) returns (r: Result<seq<seq<Cell>>, Failure>)
    ensures r == AppendRows(records, rows)
  {
    var columns := records;
    for i := 0 to |rows|
      invariant AppendRows(columns, rows[i..]) == AppendRows(records, rows)
    {
      assert rows[i..][1..] == rows[i + 1..];
      var next := AppendRowTo(columns, rows[i]);
      if next.Err? {
        return Err(next.error);
      }
      columns := next.value;
    }
    r := Ok(columns);
  }

  // ---------------------------------------------------------------------------
  // Reading every file.

  /** The schema, once read, and one buffer per schema field. */
  datatype IngestState = IngestState(schema: Option<seq<Field>>, records: seq<seq<Cell>>)

  ghost predicate Shaped(st: IngestState) {
    && (st.schema.None? ==> st.records == [])
    && (st.schema.Some? ==> |st.records| == |st.schema.value|)
  }

  /** The rows after the header. */
  function DataRows(r: Range): (rows: seq<seq<Cell>>)
    ensures |rows| == if r == [] then 0 else |r| - 1
  {
    if r == [] then [] else r[1..]
  }

  /** One file's chosen sheet: open the workbook, pick the sheet, read its range. */
  function SheetRange(file: string, selector: Option<string>, store: WorkbookStore): Result<Range, Failure>
  {
    match store.openWorkbook(file)
    case Err(e) => Err(Raised(e))
    case Ok(workbook) =>
      match ChooseSheet(selector, workbook)
      case Err(e) => Err(Raised(e))
      case Ok(sheet) =>
        match WorksheetRange(workbook, sheet)
        case Err(e) => Err(Raised(e))
        case Ok(range) => Ok(range)
  }

  /** Buffer `k` before a file is read: its contents, or nothing while no header has been read. */
  function StartOf(st: IngestState, k: nat): seq<Cell> {
    if st.schema.Some? && k < |st.records| then st.records[k] else []
  }

  /** The header state a file's range leads to: the old schema, or the range's header with empty buffers. */
  function Headed(st: IngestState, range: Range): Result<IngestState, Failure> {
    if st.schema.Some? then Ok(st)
    else match HeaderSchema(range)
      case Err(e) => Err(Raised(e))
      case Ok(fields) => Ok(IngestState(Some(fields), seq(|fields|, _ => [])))
  }

  /**
   * One file: open it, read the chosen sheet, take the header if none yet,
   * buffer the data rows. Afterwards buffer `k` holds what it held before,
   * followed by the `k`-th cells of the sheet's data rows in row order.
   */
  function IngestFile(st: IngestState, file: string, selector: Option<string>, store: WorkbookStore): (r: Result<IngestState, Failure>)
    ensures Shaped(st) && r.Ok? ==> Shaped(r.value)
    ensures st.schema.Some? && r.Ok? ==> r.value.schema == st.schema
    ensures r.Ok? ==> r.value.schema.Some? && SheetRange(file, selector, store).Ok?
    ensures Shaped(st) && r.Ok? ==> forall k :: 0 <= k < |r.value.records| ==>
      r.value.records[k] == StartOf(st, k) + ColumnOf(DataRows(SheetRange(file, selector, store).value), k)
  {
    match SheetRange(file, selector, store)
    case Err(f) => Err(f)
    case Ok(range) =>
      match Headed(st, range)
      case Err(f) => Err(f)
      case Ok(h) =>
        AppendRowsKeepsWidth(h.records, DataRows(range));
        match AppendRows(h.records, DataRows(range))
        case Err(f) => Err(f)
        case Ok(records) =>
          forall k | 0 <= k < |records|
            ensures records[k] == h.records[k] + ColumnOf(DataRows(range), k)
          {
            AppendRowsTransposes(h.records, DataRows(range), k);
          }
          Ok(IngestState(h.schema, records))
  }

  lemma {:induction false} AppendRowsKeepsWidth(records: seq<seq<Cell>>, rows: seq<seq<Cell>>)
    ensures AppendRows(records, rows).Ok? ==> |AppendRows(records, rows).value| == |records|
    decreases |rows|
  {
    if rows != [] && AppendRow(records, rows[0]).Ok? {
      AppendRowsKeepsWidth(AppendRow(records, rows[0]).value, rows[1..]);
    }
  }

  /** The files in order; the first failure stops the walk. */
  function IngestFiles(st: IngestState, files: seq<string>, selector: Option<string>, store: WorkbookStore): (r: Result<IngestState, Failure>)
    ensures files == [] ==> r == Ok(st)
    ensures r.Ok? && files != [] ==> r.value.schema.Some?
    ensures r.Ok? ==> forall i :: 0 <= i < |files| ==> SheetRange(files[i], selector, store).Ok?
    decreases |files|
  {
    if files == [] then Ok(st)
    else
      match IngestFile(st, files[0], selector, store)
      case Err(f) => Err(f)
      case Ok(next) => IngestFiles(next, files[1..], selector, store)
  }

  /** Once the schema is set, later files never change it. */
  lemma {:induction false} IngestFilesKeepsSchema(st: IngestState, files: seq<string>, selector: Option<string>, store: WorkbookStore)
    requires st.schema.Some?
    ensures IngestFiles(st, files, selector, store).Ok? ==> IngestFiles(st, files, selector, store).value.schema == st.schema
    decreases |files|
  {
    if files != [] && IngestFile(st, files[0], selector, store).Ok? {
      IngestFilesKeepsSchema(IngestFile(st, files[0], selector, store).value, files[1..], selector, store);
    }
  }

  lemma {:induction false} IngestFilesShaped(st: IngestState, files: seq<string>, selector: Option<string>, store: WorkbookStore)
    requires Shaped(st)
    ensures IngestFiles(st, files, selector, store).Ok? ==> Shaped(IngestFiles(st, files, selector, store).value)
    decreases |files|
  {
    if files != [] && IngestFile(st, files[0], selector, store).Ok? {
      IngestFilesShaped(IngestFile(st, files[0], selector, store).value, files[1..], selector, store);
    }
  }

  /** The `k`-th cells of every file's data rows: file by file, in the order found, then row by row. */
  function ColumnAcross(files: seq<string>, selector: Option<string>, store: WorkbookStore, k: nat): seq<Cell>
    decreases |files|
  {
    if files == [] then []
    else
      var own := match SheetRange(files[0], selector, store)
        case Ok(range) => ColumnOf(DataRows(range), k)
        case Err(_) => [];
      own + ColumnAcross(files[1..], selector, store, k)
  }

  /** After a successful walk, buffer `k` is its old contents followed by column `k` of every file's data rows, in file order. */
  lemma {:induction false} IngestFilesColumns(st: IngestState, files: seq<string>, selector: Option<string>, store: WorkbookStore, k: nat)
    requires Shaped(st)
    requires var r := IngestFiles(st, files, selector, store); r.Ok? && k < |r.value.records|
    ensures IngestFiles(st, files, selector, store).value.records[k] == StartOf(st, k) + ColumnAcross(files, selector, store, k)
    decreases |files|
  {
    if files != [] {
      var next := IngestFile(st, files[0], selector, store).value;
      var rest := IngestFiles(next, files[1..], selector, store);
      assert IngestFiles(st, files, selector, store) == rest;
      IngestFilesKeepsSchema(next, files[1..], selector, store);
      IngestFilesShaped(next, files[1..], selector, store);
      assert k < |next.records|;
      var own := ColumnOf(DataRows(SheetRange(files[0], selector, store).value), k);
      assert StartOf(next, k) == StartOf(st, k) + own;
      assert ColumnAcross(files, selector, store, k) == own + ColumnAcross(files[1..], selector, store, k);
      IngestFilesColumns(next, files[1..], selector, store, k);
    }
  }

  /** The method form of one file's step: the data-row loop is the buffering loop. */
  method ReadFile(st: IngestState, file: string, selector: Option<string>, store: WorkbookStore) returns (r: Result<IngestState, Failure>)
    ensures r == IngestFile(st, file, selector, store)
  {
    var range := SheetRange(file, selector, store);
    if range.Err? {
      return Err(range.error);
    }
    var headed := Headed(st, range.value);
    if headed.Err? {
      return Err(headed.error);
    }
    var appended := AppendRowsTo(headed.value.records, DataRows(range.value));
    if appended.Err? {
      return Err(appended.error);
    }
    r := Ok(IngestState(headed.value.schema, appended.value));
  }

  // ---------------------------------------------------------------------------
  // Building the batch.

  /** The array for one field from its buffer; an `Int32` field has no branch and panics. */
  function BuildArray(field: Field, column: seq<Cell>): (r: Result<ArrowArray, Failure>)
    ensures r.Err? <==> field.dataType == Int32
    ensures r.Err? ==> r.error == Panicked(NOT_IMPLEMENTED)
    ensures r.Ok? ==> r.value.Length() == |column|
    ensures field.dataType == Utf8 ==> r == Ok(StringArray(seq(|column|, i requires 0 <= i < |column| => column[i].text)))
  {
    match field.dataType
    case Utf8 => Ok(StringArray(seq(|column|, i requires 0 <= i < |column| => column[i].text)))
    case Int64 => Ok(Int64Array(column))
    case Float64 => Ok(Float64Array(column))
    case TimestampNanosecond => Ok(TimestampArray(column))
    case Int32 => Err(Panicked(NOT_IMPLEMENTED))
  }

  /** The arrays of the first `n` fields, in schema order. */
  function BuildArrays(schema: seq<Field>, records: seq<seq<Cell>>, n: nat): (r: Result<seq<ArrowArray>, Failure>)
    requires n <= |schema| <= |records|
    ensures r.Ok? ==> |r.value| == n
    ensures r.Ok? ==> forall i :: 0 <= i < n ==> BuildArray(schema[i], records[i]) == Ok(r.value[i])
    ensures r.Err? <==> exists i :: 0 <= i < n && schema[i].dataType == Int32
    ensures r.Err? ==> r.error == Panicked(NOT_IMPLEMENTED)
  {
    if n == 0 then Ok([])
    else
      match BuildArrays(schema, records, n - 1)
      case Err(f) => Err(f)
      case Ok(arrays) =>
        match BuildArray(schema[n - 1], records[n - 1])
        case Err(f) => Err(f)
        case Ok(a) => Ok(arrays + [a])
  }

  /** The batch constructor's checks: at least one column, all of one length. */
  function TryNew(schema: seq<Field>, columns: seq<ArrowArray>): (r: Result<RecordBatch, Failure>)
    ensures r.Ok? <==> |columns| > 0 && forall i :: 0 <= i < |columns| ==> columns[i].Length() == columns[0].Length()
    ensures r.Ok? ==> r.value == RecordBatch(schema, columns)
    ensures columns == [] ==> r == Err(Raised(FromForeign(ForeignError(Arrow, NO_COLUMNS))))
    ensures r.Err? && columns != [] ==> r == Err(Raised(FromForeign(ForeignError(Arrow, UNEQUAL_LENGTHS))))
  {
    if columns == [] then Err(Raised(FromForeign(ForeignError(Arrow, NO_COLUMNS))))
    else if forall i :: 0 <= i < |columns| ==> columns[i].Length() == columns[0].Length() then Ok(RecordBatch(schema, columns))
    else Err(Raised(FromForeign(ForeignError(Arrow, UNEQUAL_LENGTHS))))
  }

  /** What `from_file_to_record_batch` produces for a path. */
  function RecordBatchOf(filePath: string, store: WorkbookStore): Result<RecordBatch, Failure>
  {
    match store.findFiles(filePath)
    case Err(e) => Err(Raised(e))
    case Ok(files) =>
      IngestFilesShaped(IngestState(None, []), files, SplitSelector(filePath).1, store);
      match IngestFiles(IngestState(None, []), files, SplitSelector(filePath).1, store)
      case Err(f) => Err(f)
      case Ok(st) =>
        if st.schema.None? then Err(Panicked(UNWRAP_NONE))
        else
          match BuildArrays(st.schema.value, st.records, |st.schema.value|)
          case Err(f) => Err(f)
          case Ok(arrays) => TryNew(st.schema.value, arrays)
  }

  method BuildArraysFor(schema: seq<Field>, records: seq<seq<Cell>>) returns (r: Result<seq<ArrowArray>, Failure>)
    requires |schema| <= |records|
    ensures r == BuildArrays(schema, records, |schema|)
  {
    var arrays := [];
    for i := 0 to |schema|
      invariant BuildArrays(schema, records, i) == Ok(arrays)
    {
      var built := BuildArray(schema[i], records[i]);
      if built.Err? {
        return Err(built.error);
      }
      arrays := arrays + [built.value];
    }
    r := Ok(arrays);
  }

  method FromFileToRecordBatch(filePath: string, store: WorkbookStore) returns (r: Result<RecordBatch, Failure>)
    ensures r == RecordBatchOf(filePath, store)
  {
    var selector := SplitSelector(filePath).1;
    var found := store.findFiles(filePath);
    if found.Err? {
      return Err(Raised(found.error));
    }
    var files := found.value;
    IngestFilesShaped(IngestState(None, []), files, selector, store);
    var st := IngestState(None, []);
    for i := 0 to |files|
      invariant IngestFiles(st, files[i..], selector, store) == IngestFiles(IngestState(None, []), files, selector, store)
    {
      assert files[i..][1..] == files[i + 1..];
      var next := ReadFile(st, files[i], selector, store);
      if next.Err? {
        return Err(next.error);
      }
      st := next.value;
    }
    assert files[|files|..] == [];
    if st.schema.None? {
      return Err(Panicked(UNWRAP_NONE));
    }
    var arrays := BuildArraysFor(st.schema.value, st.records);
    if arrays.Err? {
      return Err(arrays.error);
    }
    r := TryNew(st.schema.value, arrays.value);
  }

  // ---------------------------------------------------------------------------
  // Properties of a whole ingestion.

  /** Without any file there is no schema to unwrap. */
  lemma NoFilesPanics(filePath: string, store: WorkbookStore)
    requires store.findFiles(filePath) == Ok([])
    ensures RecordBatchOf(filePath, store) == Err(Panicked(UNWRAP_NONE))
  {
  }

  /** A batch has one array per schema field, in schema order, all of one length. */
  lemma OneArrayPerField(filePath: string, store: WorkbookStore)
    requires RecordBatchOf(filePath, store).Ok?
    ensures var b := RecordBatchOf(filePath, store).value;
      && |b.columns| == |b.schema| > 0
      && (forall i :: 0 <= i < |b.schema| ==> b.schema[i].dataType != Int32 && b.schema[i].nullable)
      && (forall i :: 0 <= i < |b.columns| ==> b.columns[i].Length() == b.columns[0].Length())
  {
    var files := store.findFiles(filePath).value;
    var selector := SplitSelector(filePath).1;
    IngestFilesShaped(IngestState(None, []), files, selector, store);
    var st := IngestFiles(IngestState(None, []), files, selector, store).value;
    SchemaFieldsNullable(IngestState(None, []), files, selector, store);
  }

  /** Every field a header produces is nullable. */
  lemma {:induction false} SchemaFieldsNullable(st: IngestState, files: seq<string>, selector: Option<string>, store: WorkbookStore)
    requires st.schema.Some? ==> forall i :: 0 <= i < |st.schema.value| ==> st.schema.value[i].nullable
    ensures var r := IngestFiles(st, files, selector, store);
      r.Ok? && r.value.schema.Some? ==> forall i :: 0 <= i < |r.value.schema.value| ==> r.value.schema.value[i].nullable
    decreases |files|
  {
    if files != [] && IngestFile(st, files[0], selector, store).Ok? {
      SchemaFieldsNullable(IngestFile(st, files[0], selector, store).value, files[1..], selector, store);
    }
  }

  /** The batch's schema is the header of the first file's sheet. */
  lemma SchemaFromFirstFile(filePath: string, store: WorkbookStore)
    requires RecordBatchOf(filePath, store).Ok?
    ensures var files := store.findFiles(filePath).value;
      && files != []
      && var workbook := store.openWorkbook(files[0]).value;
      && var sheet := ChooseSheet(SplitSelector(filePath).1, workbook).value;
      && RecordBatchOf(filePath, store).value.schema == HeaderSchema(WorksheetRange(workbook, sheet).value).value
  {
    var files := store.findFiles(filePath).value;
    var selector := SplitSelector(filePath).1;
    var first := IngestFile(IngestState(None, []), files[0], selector, store);
    IngestFilesKeepsSchema(first.value, files[1..], selector, store);
  }

  /**
   * Every array of a batch is built from column `k` of all the files' data
   * rows, file by file and row by row.
   */
  lemma BatchColumnsFollowFiles(filePath: string, store: WorkbookStore)
    requires RecordBatchOf(filePath, store).Ok?
    ensures var b := RecordBatchOf(filePath, store).value;
      var files := store.findFiles(filePath).value;
      forall k :: 0 <= k < |b.columns| ==>
        BuildArray(b.schema[k], ColumnAcross(files, SplitSelector(filePath).1, store, k)) == Ok(b.columns[k])
  {
    var files := store.findFiles(filePath).value;
    var selector := SplitSelector(filePath).1;
    var init := IngestState(None, []);
    IngestFilesShaped(init, files, selector, store);
    var st := IngestFiles(init, files, selector, store).value;
    forall k | 0 <= k < |st.records|
      ensures st.records[k] == ColumnAcross(files, selector, store, k)
    {
      IngestFilesColumns(init, files, selector, store, k);
    }
  }

  /** Once every file is read, an integer header cell ends in a panic, whatever the data rows hold. */
  lemma IntHeaderPanics(filePath: string, store: WorkbookStore)
    requires store.findFiles(filePath).Ok?
    requires var st := IngestFiles(IngestState(None, []), store.findFiles(filePath).value, SplitSelector(filePath).1, store);
      && st.Ok? && st.value.schema.Some?
      && exists i :: 0 <= i < |st.value.schema.value| && st.value.schema.value[i].dataType == Int32
    ensures RecordBatchOf(filePath, store) == Err(Panicked(NOT_IMPLEMENTED))
  {
    IngestFilesShaped(IngestState(None, []), store.findFiles(filePath).value, SplitSelector(filePath).1, store);
  }
}
