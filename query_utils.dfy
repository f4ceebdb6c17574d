/** QueryUtils: rewriting a query into the query that counts its rows. A plain
    query is wrapped as `SELECT COUNT(*) FROM ( q )`; a query with a `WITH`
    prologue keeps the prologue in front and wraps only the main query. */
module QueryUtils {
  import opened Common
  import opened CteGrammar

  const CountPrefix := "SELECT COUNT(*) FROM ( "
  const CteCountPrefix := " SELECT COUNT(*) FROM ( "
  const CountSuffix := " )"

  /** Skips the parenthesised inner query of one CTE element that starts at
      `offset` (just after its `AS` or column list) and returns its length up to
      and including the closing ')'. */
  method AdvanceOverCteInnerQuery(sql: string, offset: nat) returns (r: Result<nat, CteError>)
    requires offset <= |sql|
    ensures r == InnerQueryLength(sql, offset)
  {
    var brackets := 0;
    var index := offset;
    var inString := false;
    while index < |sql|
      invariant offset <= index <= |sql|
      invariant ScanFrom(sql, index, ScanState(brackets, inString)) == ScanFrom(sql, offset, Start)
      decreases |sql| - index
    {
      if sql[index] == '\'' {
        inString := true;
      } else if sql[index] == '\'' && inString {
        inString := false;
      } else if sql[index] == '(' && !inString {
        brackets := brackets + 1;
      } else if sql[index] == ')' && !inString {
        brackets := brackets - 1;
        if brackets == 0 {
          break;
        }
      }
      index := index + 1;
    }
    if brackets > 0 {
      return Err(InnerQueryNotClosed);
    }
    return Ok(index - offset + 1);
  }

  /** One iteration of the loop of locateQueryInCTEStatement: the expression
      name, then either a column list or `AS`, then the inner query and an
      optional comma. */
  method LocateElement(sql: string, offset0: nat) returns (r: ElementEnd)
    requires offset0 <= |sql|
    ensures r == Element(sql, offset0)
  {
    var offset := offset0;
    var nameEnd := MatchExpressionName(sql, offset);
    if nameEnd.None? {
      return Fail(ExpressionNameNotFound(offset, sql));
    }
    offset := nameEnd.value;
    var columnsStart := MatchPunctuation(sql, offset, '(');
    if columnsStart.Some? {
      offset := columnsStart.value;
      var columnsEnd := FindColumnNamesEnd(sql, offset);
      if columnsEnd.None? {
        return Fail(ColumnNamesNotClosed(offset, sql));
      }
      offset := columnsEnd.value;
    } else {
      var asEnd := MatchAs(sql, offset);
      if asEnd.None? {
        return Fail(AsKeywordNotFound(offset, sql));
      }
      offset := asEnd.value;
    }
    assert Element(sql, offset0) == AfterInnerQuery(sql, offset);
    r := LocateInnerQueryEnd(sql, offset);
  }

  /** The rest of that iteration: advance over the inner query that starts at
      `queryStart`, then look for a comma. */
  method LocateInnerQueryEnd(sql: string, queryStart: nat) returns (r: ElementEnd)
    requires queryStart <= |sql|
    ensures r == AfterInnerQuery(sql, queryStart)
  {
    var length := AdvanceOverCteInnerQuery(sql, queryStart);
    if length.Err? {
      return Fail(length.error);
    }
    var offset := queryStart + length.value;
    if offset > |sql| {
      return Fail(IndexOutOfRange(offset));
    }
    var comma := MatchPunctuation(sql, offset, ',');
    if comma.None? {
      return Stop(offset);
    }
    return Continue(comma.value);
  }

  /** Finds where the CTE prologue that starts at `offset` (just after `WITH`)
      ends, one element per iteration, continuing after each comma. */
  method LocateQueryInCteStatement(sql: string, offset0: nat) returns (r: Result<nat, CteError>)
    ensures r == LocateFrom(sql, offset0)
  {
    var offset := offset0;
    if offset > |sql| {
      return Err(IndexOutOfRange(offset));
    }
    while true
      invariant offset <= |sql|
      invariant LocateFrom(sql, offset) == LocateFrom(sql, offset0)
      decreases |sql| - offset
    {
      var element := LocateElement(sql, offset);
      match element
      case Fail(e) =>
        return Err(e);
      case Stop(end) =>
        return Ok(end);
      case Continue(next) =>
        offset := next;
    }
  }

  /** The statement with one trailing ';' removed. */
  function StripSemicolon(sql: string): (r: string)
    requires sql != []
    ensures sql[|sql| - 1] == ';' ==> r + ";" == sql
    ensures sql[|sql| - 1] != ';' ==> r == sql
  {
    if sql[|sql| - 1] == ';' then sql[..|sql| - 1] else sql
  }

  /** Reference definition of createCountQueryFor. */
  function CountQueryFor(sql: string): Result<string, CteError>
  {
    if sql == [] then Err(EmptyStatement)
    else
      var body := StripSemicolon(sql);
      match MatchWith(body, 0)
      case None => Ok(CountPrefix + sql + CountSuffix)
      case Some(withEnd) =>
        match LocateFrom(body, withEnd)
        case Err(e) => Err(e)
        case Ok(index) => Ok(body[..index] + CteCountPrefix + body[index..] + CountSuffix)
  }

  /** createCountQueryFor: strip one trailing ';', and if the statement opens
      with `WITH`, split it where its prologue ends. */
  method CreateCountQueryFor(sql: string) returns (r: Result<string, CteError>)
    ensures r == CountQueryFor(sql)
    ensures sql == [] ==> r == Err(EmptyStatement)
    ensures sql != [] && MatchWith(StripSemicolon(sql), 0).None? ==>
              r == Ok(CountPrefix + sql + CountSuffix)
    ensures sql != [] && MatchWith(StripSemicolon(sql), 0).Some? ==>
              (r.Ok? <==> LocateFrom(StripSemicolon(sql), MatchWith(StripSemicolon(sql), 0).value).Ok?)
    ensures r.Ok? && sql != [] && MatchWith(StripSemicolon(sql), 0).Some? ==>
              exists index :: 0 < index <= |StripSemicolon(sql)| &&
                r.value == StripSemicolon(sql)[..index] + CteCountPrefix +
                           StripSemicolon(sql)[index..] + CountSuffix
  {
    if sql == [] {
      return Err(EmptyStatement);
    }
    var body := sql;
    if body[|body| - 1] == ';' {
      body := body[..|body| - 1];
    }
    var withEnd := MatchWith(body, 0);
    if withEnd.None? {
      return Ok(CountPrefix + sql + CountSuffix);
    }
    var index := LocateQueryInCteStatement(body, withEnd.value);
    if index.Err? {
      return Err(index.error);
    }
    var cetPart := body[..index.value];
    var query := body[index.value..];
    r := Ok(cetPart + CteCountPrefix + query + CountSuffix);
  }

  /** Splitting loses nothing: prologue and main query concatenate back to the
      statement without its trailing ';'. */
  lemma CountQuerySplitsStatement(sql: string)
    requires sql != [] && MatchWith(StripSemicolon(sql), 0).Some?
    requires CountQueryFor(sql).Ok?
    ensures var body := StripSemicolon(sql);
      exists index :: 0 < index <= |body| &&
        CountQueryFor(sql).value == body[..index] + CteCountPrefix + body[index..] + CountSuffix &&
        body[..index] + body[index..] == body
  {
    var body := StripSemicolon(sql);
    var withEnd := MatchWith(body, 0).value;
    var index := LocateFrom(body, withEnd).value;
    assert body[..index] + body[index..] == body;
  }

  /** Only a leading `WITH` (in any case, after any whitespace) selects the CTE
      path; everything else is wrapped whole, trailing ';' included. */
  lemma PlainQueryWrappedWhole(sql: string)
    requires sql != []
    requires !KeywordAt(StripSemicolon(sql), SkipWhitespace(StripSemicolon(sql), 0), "WITH")
    ensures CountQueryFor(sql) == Ok(CountPrefix + sql + CountSuffix)
  {
  }

  /** The first expectation of QueryUtilsTest: a plain query. */
  lemma PlainQueryExample()
    ensures CountQueryFor("select name, age from user " + "where name = ? order by name,age desc")
         == Ok("SELECT COUNT(*) FROM ( " + "select name, age from user " + "where name = ? order by name,age desc" + " )")
  {
    var sql := "select name, age from user " + "where name = ? order by name,age desc";
    assert StripSemicolon(sql) == sql;
    assert CountPrefix + sql + CountSuffix
        == "SELECT COUNT(*) FROM ( " + "select name, age from user " + "where name = ? order by name,age desc" + " )";
    assert SkipWhitespace(sql, 0) == 0;
    assert LowerAscii(sql[1]) != LowerAscii("WITH"[1]);
  }

  /** A quote inside an inner query freezes the bracket depth, so a CTE whose
      body contains a string literal before its closing ')' is rejected. */
  lemma QuotedInnerQueryRejected()
    ensures InnerQueryLength("( select 'a' )", 0) == Err(InnerQueryNotClosed)
  {
    var s := "( select 'a' )";
    var open, plain, rest := "(", " select ", "a' )";
    assert s == open + plain + "'" + rest;
    assert Scan(open) == ScanState(1, false) by {
      assert open[..0] == [];
    }
    PlainTextKeepsState(open, plain);
    assert (open + plain + "'")[..|open + plain|] == open + plain;
    assert Scan(open + plain + "'") == ScanState(1, true);
    FrozenAfterQuote(open + plain + "'", rest);
    forall k | 0 <= k < |s|
      ensures !ClosesAt(s, 0, k)
    {
      if k > 9 {
        NoCloseAfterQuote(s, 0, 9, k);
      } else {
        assert s[k] != ')';
      }
    }
    InnerQueryLengthCharacterized(s, 0);
    assert s[0..] == s;
  }

  /** The second expectation of QueryUtilsTest: the prologue is kept in front and
      only the main query is counted (hence the two spaces after the '('). */
  lemma CteQueryExample()
    ensures CountQueryFor("with tmp as " + "( selct * from user )" + " select * from tmp")
         == Ok("with tmp as " + "( selct * from user )" + " SELECT COUNT(*) FROM ( " + " select * from tmp" + " )")
  {
    var p1, p2, p3 := "with tmp as ", "( selct * from user )", " select * from tmp";
    var s := p1 + p2 + p3;
    assert StripSemicolon(s) == s;
    assert SkipWhitespace(s, 0) == 0;
    assert KeywordAt(s, 0, "WITH");
    assert SkipWhitespace(s, 4) == 5;
    assert MatchWith(s, 0) == Some(5);
    CteExamplePrologueEnd();
    assert s[..33] == p1 + p2;
    assert s[33..] == p3;
  }

  /** The element `tmp as ( selct * from user )` of the example ends at index 33. */
  lemma CteExamplePrologueEnd()
    ensures LocateFrom("with tmp as " + "( selct * from user )" + " select * from tmp", 5) == Ok(33)
  {
    var s := "with tmp as " + "( selct * from user )" + " select * from tmp";
    CteExampleName();
    CteExampleAs();
    CteExampleInnerQuery();
    CteExampleNoComma();
    assert AfterInnerQuery(s, 12) == Stop(33);
    assert Element(s, 5) == Stop(33);
  }

  /** In the example the expression name `tmp` ends at index 9, where no column
      list opens. */
  lemma CteExampleName()
    ensures var s := "with tmp as " + "( selct * from user )" + " select * from tmp";
            MatchExpressionName(s, 5) == Some(9) && MatchPunctuation(s, 9, '(') == None
  {
    var s := "with tmp as " + "( selct * from user )" + " select * from tmp";
    assert SkipWord(s, 7) == 8;
    assert SkipWord(s, 6) == 8;
    assert SkipWord(s, 5) == 8;
    assert SkipWhitespace(s, 8) == 9;
  }

  /** In the example `as ` spans indices 9 to 12. */
  lemma CteExampleAs()
    ensures var s := "with tmp as " + "( selct * from user )" + " select * from tmp";
            MatchAs(s, 9) == Some(12)
  {
    var s := "with tmp as " + "( selct * from user )" + " select * from tmp";
    assert KeywordAt(s, 9, "AS");
    assert SkipWhitespace(s, 11) == 12;
  }

  /** In the example no comma follows the inner query. */
  lemma CteExampleNoComma()
    ensures var s := "with tmp as " + "( selct * from user )" + " select * from tmp";
            MatchPunctuation(s, 33, ',') == None
  {
    var s := "with tmp as " + "( selct * from user )" + " select * from tmp";
    assert SkipWhitespace(s, 33) == 34;
  }

  /** The inner query `( selct * from user )` of the example is 21 characters long. */
  lemma CteExampleInnerQuery()
    ensures InnerQueryLength("with tmp as " + "( selct * from user )" + " select * from tmp", 12) == Ok(21)
  {
    var s := "with tmp as " + "( selct * from user )" + " select * from tmp";
    CteExampleCloses();
    CteExampleNoEarlierClose();
    InnerQueryLengthCharacterized(s, 12);
  }

  /** The ')' at index 32 of the example closes its inner query. */
  lemma CteExampleCloses()
    ensures ClosesAt("with tmp as " + "( selct * from user )" + " select * from tmp", 12, 32)
  {
    var s := "with tmp as " + "( selct * from user )" + " select * from tmp";
    assert forall j :: 12 < j < 32 ==> s[j] != '\'' && s[j] != '(' && s[j] != ')';
    OpenThenPlainCloses(s, 12, 32);
  }

  /** No earlier index of the example closes its inner query: none holds a ')'. */
  lemma CteExampleNoEarlierClose()
    ensures forall k :: 12 <= k < 32 ==>
              !ClosesAt("with tmp as " + "( selct * from user )" + " select * from tmp", 12, k)
  {
    var s := "with tmp as " + "( selct * from user )" + " select * from tmp";
    assert forall k :: 12 <= k < 32 ==> s[k] != ')';
  }
}
