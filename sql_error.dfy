/** The SQL syntax error and its conversion into an `Exception` (src/sql/sql_error.rs). */
module SqlError {
  import opened Strings
  import opened HttpError

  datatype SqlError = SqlSyntax(sql: string, message: string)

  const DISPLAY_PREFIX := "SQL syntax error found: "
  const DISPLAY_SEPARATOR := ", SQL: "

  function SqlSyntaxError(message: string, sql: string): (e: SqlError)
    ensures e.message == message && e.sql == sql
  {
    SqlSyntax(sql, message)
  }

  /** `SQL syntax error found: {message}, SQL: {sql}`. */
  function Display(e: SqlError): (s: string)
    ensures StartsWith(s, DISPLAY_PREFIX) && EndsWith(s, DISPLAY_SEPARATOR + e.sql)
    ensures |s| == |DISPLAY_PREFIX| + |e.message| + |DISPLAY_SEPARATOR| + |e.sql|
  {
    DISPLAY_PREFIX + e.message + DISPLAY_SEPARATOR + e.sql
  }

  /** Knowing the statement, the message can be read back from the rendered text. */
  lemma DisplayRecoversMessage(e: SqlError)
    ensures var s := Display(e);
      s[|DISPLAY_PREFIX|..|s| - |DISPLAY_SEPARATOR| - |e.sql|] == e.message
  {
    var s := Display(e);
    assert s == DISPLAY_PREFIX + e.message + (DISPLAY_SEPARATOR + e.sql);
  }

  /** Between two errors about the same statement, the rendered text tells the messages apart. */
  lemma DisplayInjectiveForSql(e1: SqlError, e2: SqlError)
    requires e1.sql == e2.sql && Display(e1) == Display(e2)
    ensures e1 == e2
  {
    DisplayRecoversMessage(e1);
    DisplayRecoversMessage(e2);
  }

  /** A syntax error always surfaces as a Bad Request whose message is its `Display` text. */
  function ToException(e: SqlError): (x: Exception)
    ensures x.BadRequest? && x.message == Display(e)
    ensures Attributes(x).statusCode == BAD_REQUEST && Attributes(x).respMsg == Display(e)
  {
    BadRequest(Display(e))
  }
}
