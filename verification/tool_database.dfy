/** The database operations of the controller script
    `optimization_toolboxV3.21.py`: the import-log cleanup statement and the
    statement guard of `execute_sql`. The database itself is a parameter. */
module ToolDatabase {
  import opened Wrappers
  import opened Text
  import opened Sql

  // ---------------------------------------------------------------------------
  // Import-log cleanup (`cleanup_import_logs`)
  // ---------------------------------------------------------------------------

  const CleanupPrefix: string := "DELETE FROM " + "import_logs " + "WHERE created_at " + "< datetime(" + "'now', "
  const CleanupStatement: string := CleanupPrefix + "?" + ")"

  lemma CleanupPrefixHasNoPlaceholder()
    ensures '?' !in CleanupPrefix
  {
  }

  /** `-{days} days`. */
  function AgeModifier(days: int): (r: string)
    ensures |r| == |IntToString(days)| + 6
    ensures r[0] == '-' && r[|r| - 5..] == " days" && r[1..|r| - 5] == IntToString(days)
  {
    "-" + IntToString(days) + " days"
  }

  /** The cleanup statement: fixed text with one placeholder bound to the age
      modifier, so the day count never enters the text. */
  function CleanupQuery(days: int): (q: Query<string>)
    ensures Balanced(q)
    ensures q.sql == CleanupStatement
    ensures q.params == [AgeModifier(days)]
  {
    CleanupPrefixHasNoPlaceholder();
    OnePlaceholder(CleanupPrefix);
    CountConcat(CleanupPrefix + "?", ")", '?');
    Query(CleanupStatement, [AgeModifier(days)])
  }

  // ---------------------------------------------------------------------------
  // Statement guard (`execute_sql`)
  // ---------------------------------------------------------------------------

  const AllowedKeywords: seq<string> := ["select", "insert", "update", "delete", "explain"]

  /** Where a statement goes. */
  datatype Route = Refused | ToQuery | ToUpdate

  /** The guard and branch of `execute_sql`, on the stripped, lower-cased
      text. */
  function RouteOf(sql: string): (r: Route) {
    RouteOfLower(Lower(Strip(sql)))
  }

  function RouteOfLower(sqlLower: string): (r: Route) {
    if !exists keyword :: keyword in AllowedKeywords && StartsWith(sqlLower, keyword) then Refused
    else if StartsWith(sqlLower, "select") || StartsWith(sqlLower, "explain") then ToQuery
    else ToUpdate
  }

  /** A text starting with a keyword starts with its first letter. */
  lemma FirstLetter(s: string, keyword: string)
    requires |keyword| > 0
    ensures StartsWith(s, keyword) ==> |s| > 0 && s[0] == keyword[0]
  {
    if StartsWith(s, keyword) {
      assert s[..|keyword|][0] == keyword[0];
    }
  }

  /** A statement passes the guard exactly when it starts with one of the
      five keywords. */
  lemma AllowedPrefix(s: string)
    ensures (exists keyword :: keyword in AllowedKeywords && StartsWith(s, keyword))
            <==> StartsWith(s, "select") || StartsWith(s, "insert") || StartsWith(s, "update")
                 || StartsWith(s, "delete") || StartsWith(s, "explain")
  {
    if StartsWith(s, "select") {
      assert "select" in AllowedKeywords;
    } else if StartsWith(s, "insert") {
      assert "insert" in AllowedKeywords;
    } else if StartsWith(s, "update") {
      assert "update" in AllowedKeywords;
    } else if StartsWith(s, "delete") {
      assert "delete" in AllowedKeywords;
    } else if StartsWith(s, "explain") {
      assert "explain" in AllowedKeywords;
    }
  }

  /** A query keyword and an update keyword never start the same text: they
      differ in their first letter. */
  lemma QueryNotUpdate(s: string)
    requires StartsWith(s, "select") || StartsWith(s, "explain")
    ensures !StartsWith(s, "insert") && !StartsWith(s, "update") && !StartsWith(s, "delete")
  {
    FirstLetter(s, "select");
    FirstLetter(s, "explain");
    FirstLetter(s, "insert");
    FirstLetter(s, "update");
    FirstLetter(s, "delete");
  }

  /** Queries are the statements starting with `select` or `explain`; updates
      those starting with `insert`, `update` or `delete`; everything else is
      refused. */
  lemma RouteByKeyword(sql: string)
    ensures var s := Lower(Strip(sql));
      (RouteOf(sql) == ToQuery <==> StartsWith(s, "select") || StartsWith(s, "explain"))
      && (RouteOf(sql) == ToUpdate <==> StartsWith(s, "insert") || StartsWith(s, "update") || StartsWith(s, "delete"))
      && (RouteOf(sql) == Refused <==> forall keyword :: keyword in AllowedKeywords ==> !StartsWith(s, keyword))
  {
    var s := Lower(Strip(sql));
    AllowedPrefix(s);
    if StartsWith(s, "select") || StartsWith(s, "explain") {
      QueryNotUpdate(s);
    }
  }

  /** Surrounding white space does not change where a statement goes. */
  lemma RouteIgnoresSurroundingSpace(sql: string)
    ensures RouteOf(Strip(sql)) == RouteOf(sql)
  {
    StripIdempotent(sql);
  }

  /** What `execute_sql` reports. */
  datatype SqlOutcome =
    | Rejected
    | Listed(rowCount: nat)
    | Executed(success: bool)
    | Errored(message: string)

  /** `execute_sql`: a refused statement reaches no database call; a query
      runs `query` on the original text and parameters and reports its row
      count; anything else runs `update` and reports its success; a database
      error is reported. */
  function ExecuteSql<P>(sql: string, params: Option<P>,
                         query: (string, Option<P>) -> Result<nat, string>,
                         update: (string, Option<P>) -> Result<bool, string>): (r: SqlOutcome)
    ensures r == Rejected <==> RouteOf(sql) == Refused
    ensures r.Listed? ==> RouteOf(sql) == ToQuery && query(sql, params) == Success(r.rowCount)
    ensures r.Executed? ==> RouteOf(sql) == ToUpdate && update(sql, params) == Success(r.success)
    ensures r.Errored? ==> (RouteOf(sql) == ToQuery && query(sql, params).Failure?)
                           || (RouteOf(sql) == ToUpdate && update(sql, params).Failure?)
  {
    match RouteOf(sql)
    case Refused => Rejected
    case ToQuery =>
      (match query(sql, params)
       case Success(n) => Listed(n)
       case Failure(e) => Errored(e))
    case ToUpdate =>
      (match update(sql, params)
       case Success(ok) => Executed(ok)
       case Failure(e) => Errored(e))
  }
}
