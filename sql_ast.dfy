/**
 * The parsed SQL tree, reduced to the node kinds the table-name extractor
 * distinguishes (the sqlparser crate's `Statement`, `Query`, `SetExpr`,
 * `Select`, `TableWithJoins`, `TableFactor` and `Expr`). Every other kind of
 * node is one `Other…` case without children, because the extractor never
 * looks inside it.
 */
module SqlAst {
  import opened Wrappers

  datatype Statement =
    | QueryStatement(query: Query)
    | CreateTable(create: CreateTableStatement)
    | OtherStatement

  /** `CREATE TABLE name (columns) … LOCATION 'path' COMMENT 'text'`. */
  datatype CreateTableStatement = CreateTableStatement(
    name: string,
    columns: seq<ColumnDef>,
    location: Option<string>,   // `hive_formats.location`, absent when either level is absent
    comment: Option<string>)

  /** A column definition with its declared type as written. */
  datatype ColumnDef = ColumnDef(name: string, dataType: string)

  /** A query: an optional `WITH` clause and a body. */
  datatype Query = Query(with: Option<With>, body: SetExpr)

  datatype With = With(cteTables: seq<Cte>)

  datatype Cte = Cte(alias: string, query: Query)

  /** A query body: a plain `SELECT`, a parenthesised query, or anything else (set operations, VALUES, …). */
  datatype SetExpr =
    | SelectBody(select: Select)
    | QueryBody(query: Query)
    | OtherSetExpr

  /** The FROM list and the WHERE clause of a `SELECT`. */
  datatype Select = Select(from: seq<TableWithJoins>, selection: Option<Expr>)

  datatype TableWithJoins = TableWithJoins(relation: TableFactor, joins: seq<Join>)

  datatype Join = Join(relation: TableFactor)

  /** A named table, a derived table `(subquery) AS x`, or anything else (table functions, UNNEST, …). */
  datatype TableFactor =
    | Table(name: string)
    | Derived(subquery: Query)
    | OtherFactor

  /**
   * The expression kinds the extractor descends into; `InSubquery` also
   * keeps its left operand, which the extractor does not visit.
   */
  datatype Expr =
    | Subquery(query: Query)
    | BinaryOp(left: Expr, right: Expr)
    | Exists(subquery: Query, negated: bool)
    | InSubquery(expr: Expr, subquery: Query, negated: bool)
    | OtherExpr
}
