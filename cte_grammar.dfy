/** The pieces of SQL text that the count-query rewriter recognises in a
    `WITH name [(cols)] AS (query), ...` prologue: the anchored regular
    expressions of QueryUtils/SQLUtils as functions from a start index to the
    index just past the match, the bracket scanner that skips one inner query,
    and the reference definition of where the prologue ends. */
module CteGrammar {
  import opened Common

  /** Why a CTE prologue could not be split. The three located failures are the
      `IllegalArgumentException`s of the source (offset and SQL as in their
      messages); the other two are the exceptions the JDK raises. */
  datatype CteError =
    | ExpressionNameNotFound(offset: nat, sql: string)
    | ColumnNamesNotClosed(offset: nat, sql: string)
    | AsKeywordNotFound(offset: nat, sql: string)
    | InnerQueryNotClosed
    | IndexOutOfRange(index: int)
    | EmptyStatement

  /** Index just past the run of `\s` characters that starts at i. */
  function SkipWhitespace(s: string, i: nat): (j: nat)
    requires i <= |s|
    ensures i <= j <= |s|
    ensures forall k :: i <= k < j ==> IsJavaWhitespace(s[k])
    ensures j < |s| ==> !IsJavaWhitespace(s[j])
    decreases |s| - i
  {
    if i < |s| && IsJavaWhitespace(s[i]) then SkipWhitespace(s, i + 1) else i
  }

  predicate IsWordChar(c: char)
  {
    'a' <= c <= 'z' || 'A' <= c <= 'Z' || '0' <= c <= '9' || c == '_'
  }

  /** Index just past the run of `[a-zA-Z0-9_]` characters that starts at i. */
  function SkipWord(s: string, i: nat): (j: nat)
    requires i <= |s|
    ensures i <= j <= |s|
    ensures forall k :: i <= k < j ==> IsWordChar(s[k])
    ensures j < |s| ==> !IsWordChar(s[j])
    decreases |s| - i
  {
    if i < |s| && IsWordChar(s[i]) then SkipWord(s, i + 1) else i
  }

  /** The keyword occurs at i, compared under `Pattern.CASE_INSENSITIVE` (ASCII). */
  predicate KeywordAt(s: string, i: nat, keyword: string)
  {
    i + |keyword| <= |s| &&
    forall k :: 0 <= k < |keyword| ==> LowerAscii(s[i + k]) == LowerAscii(keyword[k])
  }

  /** `^[\s]*KEYWORD[\s]*` matched at i; the result is `matcher.end()`. */
  function MatchKeyword(s: string, i: nat, keyword: string): (r: Option<nat>)
    requires i <= |s|
    ensures r.Some? ==> i + |keyword| <= r.value <= |s|
    ensures r.Some? <==> KeywordAt(s, SkipWhitespace(s, i), keyword)
  {
    var j := SkipWhitespace(s, i);
    if KeywordAt(s, j, keyword) then Some(SkipWhitespace(s, j + |keyword|)) else None
  }

  /** WITH_CTE: `^[\s\t\n\r]*WITH[\s\t\n\r]*`. */
  function MatchWith(s: string, i: nat): Option<nat>
    requires i <= |s|
  {
    MatchKeyword(s, i, "WITH")
  }

  /** WITH_AS: `^[\s\t\n\r]*AS[\s\t\n\r]*`. */
  function MatchAs(s: string, i: nat): Option<nat>
    requires i <= |s|
  {
    MatchKeyword(s, i, "AS")
  }

  /** WITH_EXPRESSION_NAME: `^[\s\t\n\r]*[a-zA-Z0-9_]*[\s\t\n\r]*`. Every part is
      starred, so the pattern can match the empty string. */
  function MatchExpressionName(s: string, i: nat): (r: Option<nat>)
    requires i <= |s|
    ensures r.Some? ==> i <= r.value <= |s|
  {
    Some(SkipWhitespace(s, SkipWord(s, SkipWhitespace(s, i))))
  }

  /** COLUMN_NAMES_START (`^[\s\t\n\r]*\(`) with `c == '('` and WITH_COMMA
      (`^[\s\t\n\r]*,`) with `c == ','`: the character `c` after optional
      whitespace, anchored at i. */
  function MatchPunctuation(s: string, i: nat, c: char): (r: Option<nat>)
    requires i <= |s|
    ensures r.Some? ==> i < r.value <= |s| && s[r.value - 1] == c
    ensures r.Some? ==> forall k :: i <= k < r.value - 1 ==> IsJavaWhitespace(s[k])
  {
    var j := SkipWhitespace(s, i);
    if j < |s| && s[j] == c then Some(j + 1) else None
  }

  /** COLUMN_NAMES_END: `\)` used with `find()`, so unanchored: the end of the
      first ')' at or after i. */
  function FindColumnNamesEnd(s: string, i: nat): (r: Option<nat>)
    requires i <= |s|
    ensures r.Some? ==> i < r.value <= |s| && s[r.value - 1] == ')'
    ensures r.Some? ==> forall k :: i <= k < r.value - 1 ==> s[k] != ')'
    ensures r.None? ==> forall k :: i <= k < |s| ==> s[k] != ')'
    decreases |s| - i
  {
    if i == |s| then None
    else if s[i] == ')' then Some(i + 1)
    else FindColumnNamesEnd(s, i + 1)
  }

  /** The variables of the bracket scan of advanceOverCTEInnerQuery. */
  datatype ScanState = ScanState(brackets: int, inString: bool)

  const Start := ScanState(0, false)

  /** One iteration of the scan body. The second branch can never be taken:
      its condition implies the first one's, so a quote never resets the flag. */
  function Step(st: ScanState, c: char): ScanState
  {
    if c == '\'' then ScanState(st.brackets, true)
    else if c == '\'' && st.inString then ScanState(st.brackets, false)
    else if c == '(' && !st.inString then ScanState(st.brackets + 1, st.inString)
    else if c == ')' && !st.inString then ScanState(st.brackets - 1, st.inString)
    else st
  }

  /** The scan state after reading all of t (from the initial state). */
  function Scan(t: string): ScanState
  {
    if t == [] then Start else Step(Scan(t[..|t| - 1]), t[|t| - 1])
  }

  /** Reading s[k] from `offset` is what ends the scan: a ')' outside a string
      literal at bracket depth one. */
  predicate ClosesAt(s: string, offset: nat, k: nat)
    requires offset <= k < |s|
  {
    s[k] == ')' && Scan(s[offset..k]) == ScanState(1, false)
  }

  /** The for loop of advanceOverCTEInnerQuery run from `index` in state `st`:
      the index it stops at (the closing ')' or the end) and the state then. */
  function ScanFrom(s: string, index: nat, st: ScanState): (r: (nat, ScanState))
    requires index <= |s|
    ensures index <= r.0 <= |s|
    decreases |s| - index
  {
    if index == |s| then (index, st)
    else
      var next := Step(st, s[index]);
      if s[index] == ')' && !st.inString && next.brackets == 0 then (index, next)
      else ScanFrom(s, index + 1, next)
  }

  /** What advanceOverCTEInnerQuery(sql, offset) returns: the number of
      characters from `offset` up to and including the ')' that closes the
      inner query. */
  function InnerQueryLength(s: string, offset: nat): (r: Result<nat, CteError>)
    requires offset <= |s|
    ensures r.Ok? ==> 1 <= r.value <= |s| - offset + 1
  {
    var (index, st) := ScanFrom(s, offset, Start);
    if st.brackets > 0 then Err(InnerQueryNotClosed) else Ok(index - offset + 1)
  }

  lemma ScanExtend(s: string, offset: nat, i: nat)
    requires offset <= i < |s|
    ensures Scan(s[offset..i + 1]) == Step(Scan(s[offset..i]), s[i])
  {
    assert s[offset..i + 1][..i - offset] == s[offset..i];
  }

  lemma {:induction false} ScanFromCharacterized(s: string, offset: nat, i: nat)
    requires offset <= i <= |s|
    requires forall j :: offset <= j < i ==> !ClosesAt(s, offset, j)
    ensures var (k, st) := ScanFrom(s, i, Scan(s[offset..i]));
      i <= k <= |s| &&
      (forall j :: offset <= j < k ==> !ClosesAt(s, offset, j)) &&
      (k < |s| ==> ClosesAt(s, offset, k) && st.brackets == 0) &&
      (k == |s| ==> st == Scan(s[offset..]))
    decreases |s| - i
  {
    if i < |s| {
      var st := Scan(s[offset..i]);
      var next := Step(st, s[i]);
      ScanExtend(s, offset, i);
      if s[i] == ')' && !st.inString && next.brackets == 0 {
        assert ClosesAt(s, offset, i);
      } else {
        assert !ClosesAt(s, offset, i);
        ScanFromCharacterized(s, offset, i + 1);
      }
    } else {
      assert s[offset..i] == s[offset..];
    }
  }

  /** Independent description of InnerQueryLength: it ends right after the first
      position that closes the inner query; with no such position it fails when
      the depth is still positive at the end, and otherwise it returns one past
      the remaining length (the offset then lies beyond the text). */
  lemma InnerQueryLengthCharacterized(s: string, offset: nat)
    requires offset <= |s|
    ensures forall k :: offset <= k < |s| && ClosesAt(s, offset, k) &&
              (forall j :: offset <= j < k ==> !ClosesAt(s, offset, j))
              ==> InnerQueryLength(s, offset) == Ok(k - offset + 1)
    ensures (forall k :: offset <= k < |s| ==> !ClosesAt(s, offset, k)) ==>
              InnerQueryLength(s, offset) ==
                if Scan(s[offset..]).brackets > 0 then Err(InnerQueryNotClosed)
                else Ok(|s| - offset + 1)
  {
    assert s[offset..offset] == [];
    ScanFromCharacterized(s, offset, offset);
  }

  /** The quote flag is set exactly when a quote has been read: it is never reset. */
  lemma {:induction false} InStringIffQuoteRead(t: string)
    ensures Scan(t).inString <==> '\'' in t
  {
    if t != [] {
      var init := t[..|t| - 1];
      InStringIffQuoteRead(init);
      assert t == init + [t[|t| - 1]];
    }
  }

  /** Once inside a string literal, nothing read afterwards changes the depth. */
  lemma {:induction false} FrozenAfterQuote(t: string, u: string)
    requires Scan(t).inString
    ensures Scan(t + u) == Scan(t)
    decreases |u|
  {
    if u != [] {
      var init := u[..|u| - 1];
      assert (t + u)[..|t + u| - 1] == t + init;
      FrozenAfterQuote(t, init);
      assert Scan(t + u) == Step(Scan(t + init), u[|u| - 1]);
    } else {
      assert t + u == t;
    }
  }

  /** Consequently the inner query can only be closed before its first quote. */
  lemma NoCloseAfterQuote(s: string, offset: nat, q: nat, k: nat)
    requires offset <= q < k < |s| && s[q] == '\''
    ensures !ClosesAt(s, offset, k)
  {
    InStringIffQuoteRead(s[offset..k]);
    assert s[offset..k][q - offset] == '\'';
  }

  /** The depth tracks parentheses and quotes only: text without either leaves
      the scan state unchanged. */
  lemma {:induction false} PlainTextKeepsState(t: string, u: string)
    requires forall k :: 0 <= k < |u| ==> u[k] != '\'' && u[k] != '(' && u[k] != ')'
    ensures Scan(t + u) == Scan(t)
    decreases |u|
  {
    if u != [] {
      var init := u[..|u| - 1];
      assert (t + u)[..|t + u| - 1] == t + init;
      PlainTextKeepsState(t, init);
      assert Scan(t + u) == Step(Scan(t + init), u[|u| - 1]);
    } else {
      assert t + u == t;
    }
  }

  /** An opening '(' followed by plain text is closed by the next ')'. */
  lemma OpenThenPlainCloses(s: string, offset: nat, k: nat)
    requires offset < k < |s|
    requires s[offset] == '(' && s[k] == ')'
    requires forall j :: offset < j < k ==> s[j] != '\'' && s[j] != '(' && s[j] != ')'
    ensures ClosesAt(s, offset, k)
  {
    var open, plain := s[offset..offset + 1], s[offset + 1..k];
    assert s[offset..k] == open + plain;
    assert Scan(open) == ScanState(1, false) by {
      assert open[..0] == [];
    }
    forall j | 0 <= j < |plain|
      ensures plain[j] != '\'' && plain[j] != '(' && plain[j] != ')'
    {
      assert plain[j] == s[offset + 1 + j];
    }
    PlainTextKeepsState(open, plain);
  }

  /** How one `name [(cols)] AS (query)` element of the prologue ends. */
  datatype ElementEnd =
    | Continue(next: nat)
    | Stop(end: nat)
    | Fail(error: CteError)

  /** The source's behaviour after the inner query of one element: step over it,
      then either a comma leads to the next element or the prologue ends here. */
  function AfterInnerQuery(s: string, offset: nat): (r: ElementEnd)
    requires offset <= |s|
    ensures r.Continue? ==> offset < r.next <= |s|
    ensures r.Stop? ==> offset < r.end <= |s|
  {
    match InnerQueryLength(s, offset)
    case Err(e) => Fail(e)
    case Ok(length) =>
      var after := offset + length;
      if after > |s| then Fail(IndexOutOfRange(after))
      else
        match MatchPunctuation(s, after, ',')
        case Some(next) => Continue(next)
        case None => Stop(after)
  }

  /** One iteration of the `while (true)` loop of locateQueryInCTEStatement. */
  function Element(s: string, offset: nat): (r: ElementEnd)
    requires offset <= |s|
    ensures r.Continue? ==> offset < r.next <= |s|
    ensures r.Stop? ==> offset < r.end <= |s|
  {
    match MatchExpressionName(s, offset)
    case None => Fail(ExpressionNameNotFound(offset, s))
    case Some(nameEnd) =>
      match MatchPunctuation(s, nameEnd, '(')
      case Some(columnsStart) =>
        (match FindColumnNamesEnd(s, columnsStart)
         case None => Fail(ColumnNamesNotClosed(columnsStart, s))
         case Some(columnsEnd) => AfterInnerQuery(s, columnsEnd))
      case None =>
        match MatchAs(s, nameEnd)
        case None => Fail(AsKeywordNotFound(nameEnd, s))
        case Some(asEnd) => AfterInnerQuery(s, asEnd)
  }

  /** Reference definition of where the CTE prologue that starts at `offset`
      ends, i.e. where the main query begins. */
  function LocateFrom(s: string, offset: nat): (r: Result<nat, CteError>)
    ensures r.Ok? ==> offset < r.value <= |s|
    decreases |s| + 1 - offset
  {
    if offset > |s| then Err(IndexOutOfRange(offset))
    else
      match Element(s, offset)
      case Fail(e) => Err(e)
      case Stop(end) => Ok(end)
      case Continue(next) => LocateFrom(s, next)
  }

  /** The expression-name pattern always matches, so its error is never raised. */
  lemma ExpressionNameAlwaysMatches(s: string, offset: nat)
    requires offset <= |s|
    ensures MatchExpressionName(s, offset).Some?
    ensures !Element(s, offset).Fail? || !Element(s, offset).error.ExpressionNameNotFound?
  {
  }

  /** The name error is never the reason the prologue cannot be located. */
  lemma {:induction false} LocateNeverFailsOnName(s: string, offset: nat)
    ensures LocateFrom(s, offset).Err? ==> !LocateFrom(s, offset).error.ExpressionNameNotFound?
    decreases |s| + 1 - offset
  {
    if offset <= |s| {
      ExpressionNameAlwaysMatches(s, offset);
      match Element(s, offset)
      case Fail(e) =>
      case Stop(end) =>
      case Continue(next) => LocateNeverFailsOnName(s, next);
    }
  }
}
