/**
 * Table-name extraction and statement classification (src/sql/parse.rs).
 * The parser itself is external: operations take its outcome, either the
 * statement list or the text of its `ParserError`.
 */
module Parse {
  import opened Wrappers
  import opened SqlAst
  import opened HttpError
  import opened SqlError

  /** The two kinds of request the service serves. */
  datatype SqlType = DML | DDL

  const ONLY_SELECT_MESSAGE := "Only supports Select syntax."
  const EMPTY_STATEMENTS_MESSAGE := "SQL parsing error: statements are empty"
  const UNSUPPORTED_STATEMENT_MESSAGE := "Currently, only the Select and Create statements are supported."

  /** A parser failure surfaces through `From<ParserError>`. */
  function ParserFailure(text: string): (e: Exception)
    ensures e == BadRequest(text)
  {
    FromForeign(ForeignError(Parser, text))
  }

  // ---------------------------------------------------------------------------
  // Reference definition: the identifiers a node contributes, depth-first.

  function QueryNames(q: Query): seq<string>
    decreases q
  {
    (if q.body.SelectBody? then SelectNames(q.body.select) else [])
    + (if q.with.Some? then CteNames(q.with.value.cteTables) else [])
    + (if q.body.QueryBody? then QueryNames(q.body.query) else [])
  }

  function SelectNames(s: Select): seq<string>
    decreases s
  {
    FromNames(s.from) + (if s.selection.Some? then ExprNames(s.selection.value) else [])
  }

  function FromNames(ts: seq<TableWithJoins>): seq<string>
    decreases ts
  {
    if ts == [] then [] else FromNames(ts[..|ts| - 1]) + TableWithJoinsNames(ts[|ts| - 1])
  }

  function CteNames(cs: seq<Cte>): seq<string>
    decreases cs
  {
    if cs == [] then [] else CteNames(cs[..|cs| - 1]) + QueryNames(cs[|cs| - 1].query)
  }

  function TableWithJoinsNames(t: TableWithJoins): seq<string>
    decreases t
  {
    FactorNames(t.relation) + JoinNames(t.joins)
  }

  function JoinNames(js: seq<Join>): seq<string>
    decreases js
  {
    if js == [] then [] else JoinNames(js[..|js| - 1]) + JoinFactorNames(js[|js| - 1])
  }

  function JoinFactorNames(j: Join): seq<string>
    decreases j
  {
    FactorNames(j.relation)
  }

  function FactorNames(f: TableFactor): seq<string>
    decreases f
  {
    match f
    case Table(name) => [name]
    case Derived(subquery) => QueryNames(subquery)
    case OtherFactor => []
  }

  function ExprNames(e: Expr): seq<string>
    decreases e
  {
    match e
    case Subquery(query) => QueryNames(query)
    case BinaryOp(left, right) => ExprNames(left) + ExprNames(right)
    case Exists(subquery, _) => QueryNames(subquery)
    case InSubquery(_, subquery, _) => QueryNames(subquery)
    case OtherExpr => []
  }

  // ---------------------------------------------------------------------------
  // The extractor: each walk appends what it finds to the caller's list.

  method ExtractFromQuery(q: Query, names: seq<string>) returns (out: seq<string>)
    ensures out == names + QueryNames(q)
    decreases q
  {
    out := names;
    if q.body.SelectBody? {
      out := ExtractFromSelect(q.body.select, out);
    }
    if q.with.Some? {
      out := ExtractFromCtes(q.with.value.cteTables, out);
    }
    if q.body.QueryBody? {
      out := ExtractFromQuery(q.body.query, out);
    }
  }

  method ExtractFromSelect(s: Select, names: seq<string>) returns (out: seq<string>)
    ensures out == names + SelectNames(s)
    decreases s
  {
    out := names;
    for i := 0 to |s.from|
      invariant out == names + FromNames(s.from[..i])
    {
      assert s.from[..i + 1][..i] == s.from[..i];
      out := ExtractFromTableWithJoins(s.from[i], out);
    }
    assert s.from[..|s.from|] == s.from;
    if s.selection.Some? {
      out := ExtractFromExpr(s.selection.value, out);
    }
  }

  method ExtractFromCtes(ctes: seq<Cte>, names: seq<string>) returns (out: seq<string>)
    ensures out == names + CteNames(ctes)
    decreases ctes
  {
    out := names;
    for i := 0 to |ctes|
      invariant out == names + CteNames(ctes[..i])
    {
      assert ctes[..i + 1][..i] == ctes[..i];
      out := ExtractFromQuery(ctes[i].query, out);
    }
    assert ctes[..|ctes|] == ctes;
  }

  method ExtractFromTableWithJoins(t: TableWithJoins, names: seq<string>) returns (out: seq<string>)
    ensures out == names + TableWithJoinsNames(t)
    decreases t
  {
    out := ExtractFromTableFactor(t.relation, names);
    ghost var afterRelation := out;
    for i := 0 to |t.joins|
      invariant out == afterRelation + JoinNames(t.joins[..i])
    {
      assert t.joins[..i + 1][..i] == t.joins[..i];
      out := ExtractFromJoin(t.joins[i], out);
    }
    assert t.joins[..|t.joins|] == t.joins;
  }

  method ExtractFromJoin(j: Join, names: seq<string>) returns (out: seq<string>)
    ensures out == names + JoinFactorNames(j)
    decreases j
  {
    out := ExtractFromTableFactor(j.relation, names);
  }

  method ExtractFromTableFactor(f: TableFactor, names: seq<string>) returns (out: seq<string>)
    ensures out == names + FactorNames(f)
    decreases f
  {
    match f
    case Table(name) =>
      out := names + [name];
    case Derived(subquery) =>
      out := ExtractFromQuery(subquery, names);
    case OtherFactor =>
      out := names;
  }

  method ExtractFromExpr(e: Expr, names: seq<string>) returns (out: seq<string>)
    ensures out == names + ExprNames(e)
    decreases e
  {
    match e
    case Subquery(query) =>
      out := ExtractFromQuery(query, names);
    case BinaryOp(left, right) =>
      out := ExtractFromExpr(left, names);
      out := ExtractFromExpr(right, out);
    case Exists(subquery, _) =>
      out := ExtractFromQuery(subquery, names);
    case InSubquery(_, subquery, _) =>
      out := ExtractFromQuery(subquery, names);
    case OtherExpr =>
      out := names;
  }

  // ---------------------------------------------------------------------------
  // Statements.

  /** The names of every statement, in statement order, when all of them are queries. */
  function StatementsNames(statements: seq<Statement>): seq<string>
    requires forall i :: 0 <= i < |statements| ==> statements[i].QueryStatement?
  {
    if statements == [] then []
    else StatementsNames(statements[..|statements| - 1]) + QueryNames(statements[|statements| - 1].query)
  }

  /** What `get_table_names` returns for a statement list. */
  function TableNames(sql: string, parsed: Result<seq<Statement>, string>): (r: Result<seq<string>, Exception>)
    ensures parsed.Err? ==> r == Err(ParserFailure(parsed.error))
    ensures parsed.Ok? ==>
      (r.Ok? <==> forall i :: 0 <= i < |parsed.value| ==> parsed.value[i].QueryStatement?)
    ensures parsed.Ok? && r.Err? ==> r.error == ToException(SqlSyntaxError(ONLY_SELECT_MESSAGE, sql))
    ensures parsed.Ok? && r.Ok? ==> r.value == StatementsNames(parsed.value)
  {
    match parsed
    case Err(text) => Err(ParserFailure(text))
    case Ok(statements) =>
      if forall i :: 0 <= i < |statements| ==> statements[i].QueryStatement? then Ok(StatementsNames(statements))
      else Err(ToException(SqlSyntaxError(ONLY_SELECT_MESSAGE, sql)))
  }

  /** `get_table_names`: walks the statements in order and stops at the first one that is not a query. */
  method GetTableNames(sql: string, parsed: Result<seq<Statement>, string>) returns (r: Result<seq<string>, Exception>)
    ensures r == TableNames(sql, parsed)
  {
    if parsed.Err? {
      return Err(ParserFailure(parsed.error));
    }
    var statements := parsed.value;
    var tableNames := [];
    for i := 0 to |statements|
      invariant forall k :: 0 <= k < i ==> statements[k].QueryStatement?
      invariant tableNames == StatementsNames(statements[..i])
    {
      assert statements[..i + 1][..i] == statements[..i];
      match statements[i]
      case QueryStatement(query) =>
        tableNames := ExtractFromQuery(query, tableNames);
      case _ =>
        return Err(ToException(SqlSyntaxError(ONLY_SELECT_MESSAGE, sql)));
    }
    assert statements[..|statements|] == statements;
    r := Ok(tableNames);
  }

  /** `get_sql_type`: an empty list is an error; otherwise the first statement alone decides. */
  function GetSqlType(sql: string, parsed: Result<seq<Statement>, string>): (r: Result<(seq<Statement>, SqlType), Exception>)
    ensures parsed.Err? ==> r == Err(ParserFailure(parsed.error))
    ensures parsed == Ok([]) ==> r == Err(ToException(SqlSyntaxError(EMPTY_STATEMENTS_MESSAGE, sql)))
    ensures parsed.Ok? && parsed.value != [] ==>
      && (parsed.value[0].QueryStatement? <==> r == Ok((parsed.value, DML)))
      && (parsed.value[0].CreateTable? <==> r == Ok((parsed.value, DDL)))
      && (parsed.value[0].OtherStatement? <==> r == Err(UnprocessableEntityError(UNSUPPORTED_STATEMENT_MESSAGE)))
  {
    match parsed
    case Err(text) => Err(ParserFailure(text))
    case Ok(statements) =>
      if statements == [] then Err(ToException(SqlSyntaxError(EMPTY_STATEMENTS_MESSAGE, sql)))
      else
        match statements[0]
        case QueryStatement(_) => Ok((statements, DML))
        case CreateTable(_) => Ok((statements, DDL))
        case OtherStatement => Err(UnprocessableEntityError(UNSUPPORTED_STATEMENT_MESSAGE))
  }

  /** Statements after the first never change the classification. */
  lemma OnlyFirstStatementDecides(sql: string, first: Statement, rest1: seq<Statement>, rest2: seq<Statement>)
    ensures var r1, r2 := GetSqlType(sql, Ok([first] + rest1)), GetSqlType(sql, Ok([first] + rest2));
      r1.Ok? == r2.Ok? && (r1.Ok? ==> r1.value.1 == r2.value.1) && (r1.Err? ==> r1.error == r2.error)
  {
  }

  // ---------------------------------------------------------------------------
  // Properties of the reference definition.

  /** How many `Table` factors a walk reaches, counted independently of their names. */
  function QueryTableCount(q: Query): nat
    decreases q
  {
    (if q.body.SelectBody? then SelectTableCount(q.body.select) else 0)
    + (if q.with.Some? then CteTableCount(q.with.value.cteTables) else 0)
    + (if q.body.QueryBody? then QueryTableCount(q.body.query) else 0)
  }

  function SelectTableCount(s: Select): nat
    decreases s
  {
    FromTableCount(s.from) + (if s.selection.Some? then ExprTableCount(s.selection.value) else 0)
  }

  function FromTableCount(ts: seq<TableWithJoins>): nat
    decreases ts
  {
    if ts == [] then 0
    else FromTableCount(ts[..|ts| - 1]) + FactorTableCount(ts[|ts| - 1].relation) + JoinTableCount(ts[|ts| - 1].joins)
  }

  function CteTableCount(cs: seq<Cte>): nat
    decreases cs
  {
    if cs == [] then 0 else CteTableCount(cs[..|cs| - 1]) + QueryTableCount(cs[|cs| - 1].query)
  }

  function JoinTableCount(js: seq<Join>): nat
    decreases js
  {
    if js == [] then 0 else JoinTableCount(js[..|js| - 1]) + JoinFactorTableCount(js[|js| - 1])
  }

  function JoinFactorTableCount(j: Join): nat
    decreases j
  {
    FactorTableCount(j.relation)
  }

  function FactorTableCount(f: TableFactor): nat
    decreases f
  {
    match f
    case Table(_) => 1
    case Derived(subquery) => QueryTableCount(subquery)
    case OtherFactor => 0
  }

  function ExprTableCount(e: Expr): nat
    decreases e
  {
    match e
    case Subquery(query) => QueryTableCount(query)
    case BinaryOp(left, right) => ExprTableCount(left) + ExprTableCount(right)
    case Exists(subquery, _) => QueryTableCount(subquery)
    case InSubquery(_, subquery, _) => QueryTableCount(subquery)
    case OtherExpr => 0
  }

  /** Duplicates are kept: one identifier per `Table` factor reached, never fewer. */
  lemma {:induction false} QueryNamesCount(q: Query)
    ensures |QueryNames(q)| == QueryTableCount(q)
    decreases q
  {
    if q.body.SelectBody? {
      SelectNamesCount(q.body.select);
    }
    if q.with.Some? {
      CteNamesCount(q.with.value.cteTables);
    }
    if q.body.QueryBody? {
      QueryNamesCount(q.body.query);
    }
  }

  lemma {:induction false} SelectNamesCount(s: Select)
    ensures |SelectNames(s)| == SelectTableCount(s)
    decreases s
  {
    FromNamesCount(s.from);
    if s.selection.Some? {
      ExprNamesCount(s.selection.value);
    }
  }

  lemma {:induction false} FromNamesCount(ts: seq<TableWithJoins>)
    ensures |FromNames(ts)| == FromTableCount(ts)
    decreases ts
  {
    if ts != [] {
      FromNamesCount(ts[..|ts| - 1]);
      FactorNamesCount(ts[|ts| - 1].relation);
      JoinNamesCount(ts[|ts| - 1].joins);
    }
  }

  lemma {:induction false} CteNamesCount(cs: seq<Cte>)
    ensures |CteNames(cs)| == CteTableCount(cs)
    decreases cs
  {
    if cs != [] {
      CteNamesCount(cs[..|cs| - 1]);
      QueryNamesCount(cs[|cs| - 1].query);
    }
  }

  lemma {:induction false} JoinNamesCount(js: seq<Join>)
    ensures |JoinNames(js)| == JoinTableCount(js)
    decreases js
  {
    if js != [] {
      JoinNamesCount(js[..|js| - 1]);
      JoinFactorNamesCount(js[|js| - 1]);
    }
  }

  lemma {:induction false} JoinFactorNamesCount(j: Join)
    ensures |JoinFactorNames(j)| == JoinFactorTableCount(j)
    decreases j
  {
    FactorNamesCount(j.relation);
  }

  lemma {:induction false} FactorNamesCount(f: TableFactor)
    ensures |FactorNames(f)| == FactorTableCount(f)
    decreases f
  {
    if f.Derived? {
      QueryNamesCount(f.subquery);
    }
  }

  lemma {:induction false} ExprNamesCount(e: Expr)
    ensures |ExprNames(e)| == ExprTableCount(e)
    decreases e
  {
    match e
    case Subquery(query) => QueryNamesCount(query);
    case BinaryOp(left, right) => ExprNamesCount(left); ExprNamesCount(right);
    case Exists(subquery, _) => QueryNamesCount(subquery);
    case InSubquery(_, subquery, _) => QueryNamesCount(subquery);
    case OtherExpr =>
  }

  /** The FROM list of plain tables `t1, t2, …`, each without joins. */
  function PlainFrom(tables: seq<string>): (ts: seq<TableWithJoins>)
    ensures |ts| == |tables|
  {
    if tables == [] then [] else PlainFrom(tables[..|tables| - 1]) + [TableWithJoins(Table(tables[|tables| - 1]), [])]
  }

  /** `SELECT … FROM t1, t2, …` yields exactly its tables, in appearance order, repeats included. */
  lemma {:induction false} PlainSelectNames(tables: seq<string>)
    ensures QueryNames(Query(None, SelectBody(Select(PlainFrom(tables), None)))) == tables
  {
    PlainFromNames(tables);
  }

  lemma {:induction false} PlainFromNames(tables: seq<string>)
    ensures FromNames(PlainFrom(tables)) == tables
    decreases |tables|
  {
    if tables != [] {
      var ts := PlainFrom(tables);
      assert ts[..|ts| - 1] == PlainFrom(tables[..|tables| - 1]);
      PlainFromNames(tables[..|tables| - 1]);
      assert TableWithJoinsNames(ts[|ts| - 1]) == [tables[|tables| - 1]];
      assert tables == tables[..|tables| - 1] + [tables[|tables| - 1]];
    }
  }

  /** A set operation contributes only the names of its `WITH` clause. */
  lemma SetOperationNames(with: Option<With>)
    ensures QueryNames(Query(with, OtherSetExpr)) == (if with.Some? then CteNames(with.value.cteTables) else [])
  {
  }

  /** `get_table_names` over several queries is the concatenation of their names, in statement order. */
  lemma {:induction false} StatementsNamesConcat(a: seq<Statement>, b: seq<Statement>)
    requires forall i :: 0 <= i < |a| ==> a[i].QueryStatement?
    requires forall i :: 0 <= i < |b| ==> b[i].QueryStatement?
    ensures StatementsNames(a + b) == StatementsNames(a) + StatementsNames(b)
    decreases |b|, 1
  {
    if b == [] {
      assert a + b == a;
    } else {
      StatementsNamesConcatStep(a, b);
    }
  }

  lemma {:induction false} StatementsNamesConcatStep(a: seq<Statement>, b: seq<Statement>)
    requires b != []
    requires forall i :: 0 <= i < |a| ==> a[i].QueryStatement?
    requires forall i :: 0 <= i < |b| ==> b[i].QueryStatement?
    ensures StatementsNames(a + b) == StatementsNames(a) + StatementsNames(b)
    decreases |b|, 0
  {
    var b', ab := b[..|b| - 1], a + b;
    assert ab[..|ab| - 1] == a + b';
    var last := QueryNames(b[|b| - 1].query);
    assert ab[|ab| - 1] == b[|b| - 1];
    assert StatementsNames(ab) == StatementsNames(a + b') + last;
    assert StatementsNames(b) == StatementsNames(b') + last;
    StatementsNamesConcat(a, b');
  }
}
