/** SQLUtils: the public copy of the CTE helpers. Its pattern constants and the
    bodies of locateQueryInCTEStatement and advanceOverCTEInnerQuery are the
    same text as in QueryUtils, so the model defines the scan once (in
    QueryUtils) and this module adds what differs: the public entry points,
    which take a Java `int` offset and report "no `WITH`" as -1. */
module SqlUtils {
  import opened Common
  import opened CteGrammar
  import QueryUtils

  /** matchWithCET: the index just past a leading `WITH` and its whitespace,
      or -1 when the statement does not open with `WITH`. */
  method MatchWithCet(sql: string) returns (end: int)
    ensures end == -1 <==> !KeywordAt(sql, SkipWhitespace(sql, 0), "WITH")
    ensures end != -1 ==> MatchWith(sql, 0) == Some(end) && 4 <= end <= |sql|
  {
    var m := MatchWith(sql, 0);
    if m.Some? {
      return m.value;
    }
    return -1;
  }

  /** locateQueryInCTEStatement: where the main query starts, counted from the
      start of `sql`; a negative offset fails in `substring` as any offset past
      the end does. */
  method LocateQueryInCteStatement(sql: string, offset: int) returns (r: Result<nat, CteError>)
    ensures offset < 0 ==> r == Err(IndexOutOfRange(offset))
    ensures offset >= 0 ==> r == LocateFrom(sql, offset)
    ensures r.Ok? ==> offset < r.value <= |sql|
  {
    if offset < 0 {
      return Err(IndexOutOfRange(offset));
    }
    r := QueryUtils.LocateQueryInCteStatement(sql, offset);
  }

  /** Feeding the end of matchWithCET to locateQueryInCTEStatement splits the
      statement exactly where createCountQueryFor splits it (for a statement
      without a trailing ';'). */
  lemma SameSplitAsCountQuery(sql: string, end: int)
    requires sql != [] && sql[|sql| - 1] != ';'
    requires MatchWith(sql, 0) == Some(end)
    requires LocateFrom(sql, end).Ok?
    ensures var index := LocateFrom(sql, end).value;
      QueryUtils.CountQueryFor(sql) ==
        Ok(sql[..index] + QueryUtils.CteCountPrefix + sql[index..] + QueryUtils.CountSuffix)
  {
  }
}
