# spring-data-mybatis core, modelled in Dafny

This project models the core of spring-data-mybatis, a Spring Data module that
runs repository methods through MyBatis. It proves properties of that core.
The model covers the following parts, one Dafny module each:

- `CteGrammar`, `QueryUtils`, `SqlUtils`: the count-query derivation
  (`createCountQueryFor`). This includes the regex-driven walk over a
  `WITH ... AS ( ... )` prologue and the bracket scan over a CTE inner query.
  The walk is written as a grammar of small matchers. The two Java loops are
  methods proved against it.
- `AbstractQuery`: statement ids and namespaces, the choice of the query
  execution, and the conversion of tuple results into a read-only map view.
- `QueryExecution`: the parameter maps built for each execution. This covers
  paging windows for sliced and paged queries, the page total, the exists
  result and the delete result.
- `MapperGenerator`, `ExampleGenerator`: the generated condition clauses,
  select lists, alias-to-column maps, ORDER BY blocks and query-by-example
  fragments.
- `MapperAssembler`: the generated mapper of the simple repository. This covers
  update, insert, find-by-id, pager, ids filter and the order in which the
  sections are emitted and fail.
- `SimpleRepository`: `buildExample`, save and saveIgnoreNull with id
  generation, and the remaining repository requests.
- `Dialects`: identifier quoting, the column-type tables of the base, H2, DB2
  and Oracle dialects, and paged and native-paged SQL.
- `IdentityFactory`, `TableGenerator`: resolution of the identity generator,
  and the hi/lo table generator.
- `Mapping`: the persistent-property rules (ids, associations, column names,
  JDBC types).
- `Common`: string helpers (ASCII case, decimal rendering, comma joins).

The following are modelled imperatively, as in the source:
- the dialect's type registrations (class `Dialect`);
- the generator registry (class `DefaultIdentityGeneratorFactory`);
- the table generator (class `TableGenerator`);
- the entity that `save` fills in (class `EntityObject`);
- the loops that build SQL, parameter maps and example maps (methods with
  invariants, proved against specification functions).

Where the code and its documentation disagree, the model follows the code:
- The count query carries no ` AS total` alias.
- The base dialect has no limit handler. A paged query there fails; it does
  not page on the client.
- An unknown column type fails with a `MappingException`.
- `calculateTotal` is modelled as written, and `PagedTotal` passes its value on
  as `PagedExecution` does. `PagedTotalIntended` is the offset-based total.
  See Findings.
- `ExistsExecution.doExecute` called without arguments returns the row list,
  not a boolean. `execute` then hands that list to the conversion service,
  which is not modelled beyond `Execute`'s choice. See Findings.
- The sort clauses read the column map back from the select list text by
  splitting it, as `buildSorts` does.

## Model

| member | source | states |
|---|---|---|
| CteGrammar.SkipWhitespace | src/main/java/org/springframework/data/mybatis/repository/query/QueryUtils.java:38 | stops at the first non-whitespace character and skips only whitespace (the `[\s\t\n\r]*` of every pattern) |
| CteGrammar.SkipWord | src/main/java/org/springframework/data/mybatis/repository/query/QueryUtils.java:43-44 | consumes exactly the maximal run of `[a-zA-Z0-9_]` characters |
| CteGrammar.MatchKeyword | src/main/java/org/springframework/data/mybatis/repository/query/QueryUtils.java:40-41 | matches iff the keyword (case-insensitive) follows optional whitespace; the match ends after the keyword and the trailing whitespace |
| CteGrammar.MatchExpressionName | src/main/java/org/springframework/data/mybatis/repository/query/QueryUtils.java:43-44 | the expression-name pattern always matches, possibly empty, and never moves backwards |
| CteGrammar.MatchPunctuation | src/main/java/org/springframework/data/mybatis/repository/query/QueryUtils.java:46-55 | a match (COLUMN_NAMES_START with `(`, WITH_COMMA with `,`) ends just after that character, and only whitespace precedes it |
| CteGrammar.FindColumnNamesEnd | src/main/java/org/springframework/data/mybatis/repository/query/QueryUtils.java:49 | finds the first `)` at or after the offset (unanchored search); none when there is no `)` |
| CteGrammar.ScanFromCharacterized | src/main/java/org/springframework/data/mybatis/repository/query/QueryUtils.java:150-166 | the bracket scan stops exactly at the first index whose prefix closes the outermost `(`, or runs to the end with the state of the whole suffix |
| CteGrammar.InnerQueryLengthCharacterized | src/main/java/org/springframework/data/mybatis/repository/query/QueryUtils.java:146-174 | the inner-query length is one past the first closing `)`; with no close, failure iff brackets remain open, else the length to the end plus one |
| CteGrammar.InStringIffQuoteRead | src/main/java/org/springframework/data/mybatis/repository/query/QueryUtils.java:151-156 | the in-string flag is set exactly when a `'` has been read: it is never cleared |
| CteGrammar.FrozenAfterQuote | src/main/java/org/springframework/data/mybatis/repository/query/QueryUtils.java:151-161 | once a `'` has been read no further character changes the scan state |
| CteGrammar.NoCloseAfterQuote | src/main/java/org/springframework/data/mybatis/repository/query/QueryUtils.java:151-163 | no `)` after a `'` can end the inner query |
| CteGrammar.PlainTextKeepsState | src/main/java/org/springframework/data/mybatis/repository/query/QueryUtils.java:150-166 | characters other than `'`, `(` and `)` leave bracket depth and flag unchanged |
| CteGrammar.OpenThenPlainCloses | src/main/java/org/springframework/data/mybatis/repository/query/QueryUtils.java:157-164 | `(` followed by plain text and `)` closes the inner query at that `)` |
| CteGrammar.AfterInnerQuery | src/main/java/org/springframework/data/mybatis/repository/query/QueryUtils.java:91-100 | after an inner query the scan either continues past a comma or stops, always strictly forward |
| CteGrammar.Element | src/main/java/org/springframework/data/mybatis/repository/query/QueryUtils.java:81-133 | one CTE element always advances the offset when it does not fail |
| CteGrammar.LocateFrom | src/main/java/org/springframework/data/mybatis/repository/query/QueryUtils.java:79-135 | a located query start lies strictly after the start offset and within the statement |
| CteGrammar.ExpressionNameAlwaysMatches | src/main/java/org/springframework/data/mybatis/repository/query/QueryUtils.java:81-82 | the name pattern matches every input, so an element never fails with the expression-name error |
| CteGrammar.LocateNeverFailsOnName | src/main/java/org/springframework/data/mybatis/repository/query/QueryUtils.java:130-132 | `Failed to locate CTE expression name` is unreachable for every statement and offset |
| QueryUtils.AdvanceOverCteInnerQuery | src/main/java/org/springframework/data/mybatis/repository/query/QueryUtils.java:146-174 | the loop returns exactly the specified inner-query length, or the not-closed error |
| QueryUtils.LocateElement | src/main/java/org/springframework/data/mybatis/repository/query/QueryUtils.java:81-133 | one pass of the loop body (name, optional column list or AS, inner query, optional comma) equals the element grammar |
| QueryUtils.LocateInnerQueryEnd | src/main/java/org/springframework/data/mybatis/repository/query/QueryUtils.java:91-100 | advancing over the inner query and an optional comma equals the grammar's continuation after the inner query |
| QueryUtils.LocateQueryInCteStatement | src/main/java/org/springframework/data/mybatis/repository/query/QueryUtils.java:79-135 | the `while (true)` loop returns exactly the offset the CTE grammar locates, or its error |
| QueryUtils.StripSemicolon | src/main/java/org/springframework/data/mybatis/repository/query/QueryUtils.java:59-62 | removes one trailing `;` and nothing else |
| QueryUtils.CreateCountQueryFor | src/main/java/org/springframework/data/mybatis/repository/query/QueryUtils.java:57-77 | empty input fails; a non-CTE statement is wrapped whole (unstripped, no alias); a CTE statement succeeds iff its query start is located and then keeps the prologue verbatim before the wrapped tail |
| QueryUtils.CountQuerySplitsStatement | src/main/java/org/springframework/data/mybatis/repository/query/QueryUtils.java:66-72 | the CTE count query is prologue + count wrapper around the tail, and prologue + tail is the stripped statement |
| QueryUtils.PlainQueryWrappedWhole | src/main/java/org/springframework/data/mybatis/repository/query/QueryUtils.java:74-76 | without a leading WITH the count query is `SELECT COUNT(*) FROM ( ` + sql + ` )` |
| QueryUtils.PlainQueryExample | src/test/java/org/springframework/data/mybatis/repository/query/QueryUtilsTest.java:41 | the plain query of the test gives the expected count query |
| QueryUtils.CteQueryExample | src/test/java/org/springframework/data/mybatis/repository/query/QueryUtilsTest.java:48 | the CTE query of the test gives the expected count query, with the double space |
| QueryUtils.CteExamplePrologueEnd | src/test/java/org/springframework/data/mybatis/repository/query/QueryUtilsTest.java:47-48 | the test's CTE prologue ends at offset 33 |
| QueryUtils.CteExampleInnerQuery | src/test/java/org/springframework/data/mybatis/repository/query/QueryUtilsTest.java:47 | the test's inner query `( selct * from user )` has length 21 |
| QueryUtils.QuotedInnerQueryRejected | src/main/java/org/springframework/data/mybatis/repository/query/QueryUtils.java:151-156 | an inner query holding a quoted literal is reported as not closed, because the quote flag never resets |
| SqlUtils.MatchWithCet | src/main/java/org/springframework/data/mybatis/utils/SQLUtils.java:47-54 | -1 iff there is no leading WITH; otherwise the end of the match, which is at least 4 |
| SqlUtils.LocateQueryInCteStatement | src/main/java/org/springframework/data/mybatis/utils/SQLUtils.java:56-112 | delegates to the QueryUtils loop, whose Java body is the same text: the CTE grammar's offset for a non-negative start, an index error for a negative one, and a located start always lies after the offset |
| SqlUtils.SameSplitAsCountQuery | src/main/java/org/springframework/data/mybatis/utils/SQLUtils.java:56-112 | the split the SQLUtils entry points find is the one createCountQueryFor uses |
| AbstractQuery.StatementName | src/main/java/org/springframework/data/mybatis/repository/query/AbstractMybatisQuery.java:138-144 | the annotation's value when it is non-empty, else the method name |
| AbstractQuery.Namespace | src/main/java/org/springframework/data/mybatis/repository/query/AbstractMybatisQuery.java:120-127 | the annotation's namespace when it is non-empty, else the entity's Java type name |
| AbstractQuery.StatementId | src/main/java/org/springframework/data/mybatis/repository/query/AbstractMybatisQuery.java:108-110 | the namespace, a `.`, then the statement name |
| AbstractQuery.CountStatementId | src/main/java/org/springframework/data/mybatis/repository/query/AbstractMybatisQuery.java:112-114 | the namespace, `.count_`, then the statement name |
| AbstractQuery.QueryForDeleteStatementId | src/main/java/org/springframework/data/mybatis/repository/query/AbstractMybatisQuery.java:116-118 | the namespace, `.query_`, then the statement name |
| AbstractQuery.StatementIdsDistinct | src/main/java/org/springframework/data/mybatis/repository/query/AbstractMybatisQuery.java:108-118 | the statement, `count_` and `query_` ids are namespace-qualified, end in the statement name and are pairwise different |
| AbstractQuery.ExplicitExecution | src/main/java/org/springframework/data/mybatis/repository/query/AbstractMybatisQuery.java:153-174 | every statement type except AUTO names an execution |
| AbstractQuery.DerivedExecution | src/main/java/org/springframework/data/mybatis/repository/query/AbstractMybatisQuery.java:176-196 | priority stream > slice > page > collection > exists projection > single entity, each case as an if-and-only-if |
| AbstractQuery.GetExecution | src/main/java/org/springframework/data/mybatis/repository/query/AbstractMybatisQuery.java:150-197 | an explicit non-AUTO type decides; otherwise the derived execution |
| AbstractQuery.ExplicitExecutionOneToOne | src/main/java/org/springframework/data/mybatis/repository/query/AbstractMybatisQuery.java:153-170 | explicit types map one-to-one onto executions and never to the exists execution |
| AbstractQuery.WritesNeedExplicitType | src/main/java/org/springframework/data/mybatis/repository/query/AbstractMybatisQuery.java:150-197 | insert, update and delete executions arise only from an explicit INSERT, UPDATE or DELETE type |
| AbstractQuery.Convert | src/main/java/org/springframework/data/mybatis/repository/query/AbstractMybatisQuery.java:220-239 | non-tuples pass through; a single element that is null or of the returned type is unwrapped (iff); every other tuple becomes the read-only map view over exactly its elements |
| AbstractQuery.AliasIndex | src/main/java/org/springframework/data/mybatis/repository/query/AbstractMybatisQuery.java:301-313 | the first element carrying the alias, or none when no element carries it |
| AbstractQuery.TupleBackedMap.KeySet | src/main/java/org/springframework/data/mybatis/repository/query/AbstractMybatisQuery.java:336-341 | the key set is exactly the set of element aliases |
| AbstractQuery.TupleBackedMap.ContainsKey | src/main/java/org/springframework/data/mybatis/repository/query/AbstractMybatisQuery.java:276-285 | true iff the alias is in the key set, even when its value is null |
| AbstractQuery.TupleBackedMap.Get | src/main/java/org/springframework/data/mybatis/repository/query/AbstractMybatisQuery.java:301-313 | null for an unknown alias; otherwise the value of an element with that alias |
| AbstractQuery.MapViewRejectsWrites | src/main/java/org/springframework/data/mybatis/repository/query/AbstractMybatisQuery.java:315-333 | put, remove, putAll and clear all fail with UnsupportedOperation and the fixed message |
| AbstractQuery.MapViewReadsTuple | src/main/java/org/springframework/data/mybatis/repository/query/AbstractMybatisQuery.java:254-313 | a map view has one entry per element and reads back each element whose alias is unique so far |
| QueryExecution.Int32 | src/main/java/org/springframework/data/mybatis/repository/query/MybatisQueryExecution.java:171 | Java `int` arithmetic: the result is in int range and equals the input when that is already in range |
| QueryExecution.BindParameters | src/main/java/org/springframework/data/mybatis/repository/query/MybatisQueryExecution.java:103-108 | the loop builds exactly the parameter map: a name or `p`+k per bindable parameter, bound to its argument |
| QueryExecution.ParameterMapKeys | src/main/java/org/springframework/data/mybatis/repository/query/MybatisQueryExecution.java:103-108 | the map's keys are exactly the parameters' keys |
| QueryExecution.ParameterMapBindsEach | src/main/java/org/springframework/data/mybatis/repository/query/MybatisQueryExecution.java:103-108 | with distinct keys, each key is bound to the argument at its parameter's index |
| QueryExecution.UnnamedKeysDistinct | src/main/java/org/springframework/data/mybatis/repository/query/MybatisQueryExecution.java:105 | unnamed parameters get pairwise different keys, since k counts bindable parameters |
| QueryExecution.ListingParameters | src/main/java/org/springframework/data/mybatis/repository/query/MybatisQueryExecution.java:120-146 | no argument gives the parameterless call; collection, stream and exists add `_sorts`, insert, update and single add nothing |
| QueryExecution.ExistsResult | src/main/java/org/springframework/data/mybatis/repository/query/MybatisQueryExecution.java:114-115 | true iff some row came back |
| QueryExecution.ExistsExecutionAsWritten | src/main/java/org/springframework/data/mybatis/repository/query/MybatisQueryExecution.java:91-118 | `doExecute`'s result: without arguments the row list itself; with arguments a flag that is true iff some row came back |
| QueryExecution.ExistsAsWrittenAgreesWithArguments | src/main/java/org/springframework/data/mybatis/repository/query/MybatisQueryExecution.java:96-115 | with arguments the as-written result is the existence flag; without arguments it is never a flag |
| QueryExecution.ExistsWithoutArgumentsReturnsRows | src/main/java/org/springframework/data/mybatis/repository/query/MybatisQueryExecution.java:96-97 | a `doExecute` call without arguments over one row returns the one-element list where the existence answer is true |
| QueryExecution.PagedParameters | src/main/java/org/springframework/data/mybatis/repository/query/MybatisQueryExecution.java:187-209 | offset, pageSize and offsetEnd = offset + pageSize (0, MAX, MAX without a pager); `_sorts` from the Sort argument, else the pager's sort; other parameters kept |
| QueryExecution.SlicedParameters | src/main/java/org/springframework/data/mybatis/repository/query/MybatisQueryExecution.java:152-172 | requires a pageable; over-fetches pageSize + 1 (int arithmetic) with offsetEnd = offset + pageSize |
| QueryExecution.PagesTile | src/main/java/org/springframework/data/mybatis/repository/query/MybatisQueryExecution.java:207-209 | consecutive pages meet: one page's offsetEnd is the next page's offset and the window is pageSize wide |
| QueryExecution.Window | src/main/java/org/springframework/data/mybatis/repository/query/MybatisQueryExecution.java:170-173 | the rows a query with offset and limit returns: at most limit, inside the table |
| QueryExecution.SliceOf | src/main/java/org/springframework/data/mybatis/repository/query/MybatisQueryExecution.java:175-178 | hasNext iff more than pageSize rows came back; the content is exactly the first pageSize rows when there is a next slice, else all the rows |
| QueryExecution.SliceIsExact | src/main/java/org/springframework/data/mybatis/repository/query/MybatisQueryExecution.java:170-178 | over-fetching by one yields exactly the page window, and hasNext iff rows exist beyond it |
| QueryExecution.CalculateTotalIsExact | src/main/java/org/springframework/data/mybatis/repository/query/MybatisQueryExecution.java:258-269 | with the offset-based count, a non-negative total is the table size; -1 only for a full page or a page past the end |
| QueryExecution.AsWrittenIsOnePageShort | src/main/java/org/springframework/data/mybatis/repository/query/MybatisQueryExecution.java:264 | on every later page whose total is known, the as-written total is exactly one page short |
| QueryExecution.AsWrittenUndercounts | src/main/java/org/springframework/data/mybatis/repository/query/MybatisQueryExecution.java:259-264 | page 1 of size 10 over 13 rows: as written 3, intended 13 |
| QueryExecution.PagedTotal | src/main/java/org/springframework/data/mybatis/repository/query/MybatisQueryExecution.java:224-245 | no pager: the whole result; otherwise the as-written calculateTotal value when it is non-negative; when it is negative (also after `int` wrap-around) the `count_` statement if it is registered, else the native count for a native statement |
| QueryExecution.TotalFrom | src/main/java/org/springframework/data/mybatis/repository/query/MybatisQueryExecution.java:228-245 | a non-negative value is the total; a negative one asks the `count_` statement when registered, else the native count for a native statement, else stays |
| QueryExecution.PagedTotalIntended | src/main/java/org/springframework/data/mybatis/repository/query/MybatisQueryExecution.java:224-245 | the same choice with the offset-based total: the whole result iff there is no pager, and a computed total is at least -1 |
| QueryExecution.PagedTotalsAgreeOnFirstPage | src/main/java/org/springframework/data/mybatis/repository/query/MybatisQueryExecution.java:258-268 | on a page without a previous page the as-written and offset-based totals lead to the same outcome |
| QueryExecution.PagedTotalIntendedIsExact | src/main/java/org/springframework/data/mybatis/repository/query/MybatisQueryExecution.java:224-269 | with the offset-based total a computed non-negative total is the table size, and a count query is needed only for a full page or one past the end |
| QueryExecution.PageImplMasksUndercount | src/main/java/org/springframework/data/mybatis/repository/query/MybatisQueryExecution.java:245 | for a later page that is partly filled, the total `PageImpl` reports from the as-written value is the offset-based total |
| QueryExecution.Execute | src/main/java/org/springframework/data/mybatis/repository/query/MybatisQueryExecution.java:61-89 | null on no result; unchanged when void or assignable or not convertible; otherwise converted |
| QueryExecution.DeleteRequests | src/main/java/org/springframework/data/mybatis/repository/query/MybatisQueryExecution.java:378-384 | a collection method selects by the `query_` id before the delete; every method ends with the delete |
| QueryExecution.DeleteOutcome | src/main/java/org/springframework/data/mybatis/repository/query/MybatisQueryExecution.java:385-388 | the row count for a non-collection method, the selected entities for a collection method |
| MapperGenerator.ParameterlessClauses | src/main/java/org/springframework/data/mybatis/repository/support/MybatisMapperGenerator.java:53-114 | a clause succeeds without parameters iff its type reads none; otherwise a null parameter array fails |
| MapperGenerator.FirstParameterMissing | src/main/java/org/springframework/data/mybatis/repository/support/MybatisMapperGenerator.java:53-114 | a type that reads a parameter fails as reading `properties[0]` fails |
| MapperGenerator.BetweenNeedsTwo | src/main/java/org/springframework/data/mybatis/repository/support/MybatisMapperGenerator.java:56-58 | BETWEEN binds two parameters and fails with one |
| MapperGenerator.IgnoreCaseOnlyWrapsPlaceholder | src/main/java/org/springframework/data/mybatis/repository/support/MybatisMapperGenerator.java:59-110 | ALWAYS and WHEN_POSSIBLE differ from NEVER only by `upper(...)` around the placeholder |
| MapperGenerator.OneValueClause | src/main/java/org/springframework/data/mybatis/repository/support/MybatisMapperGenerator.java:59-110 | every one-value clause is its template around the (case-folded) placeholder |
| MapperGenerator.WildcardPlacement | src/main/java/org/springframework/data/mybatis/repository/support/MybatisMapperGenerator.java:59-82 | LIKE/CONTAINING put `'%'` on both sides, STARTING_WITH after, ENDING_WITH before |
| MapperGenerator.NegatedOperators | src/main/java/org/springframework/data/mybatis/repository/support/MybatisMapperGenerator.java:116-171 | an operator begins with ` not` iff the type is a negation, and is then ` not` + the positive operator |
| MapperGenerator.NegatedClausesAgree | src/main/java/org/springframework/data/mybatis/repository/support/MybatisMapperGenerator.java:59-86 | a negated type builds the same value clause as its positive form |
| MapperGenerator.SameTemplateSameClause | src/main/java/org/springframework/data/mybatis/repository/support/MybatisMapperGenerator.java:59-110 | types sharing a template build the same clause |
| MapperGenerator.EmptyOperatorTypes | src/main/java/org/springframework/data/mybatis/repository/support/MybatisMapperGenerator.java:116-171 | the operator is empty exactly for the types the switch does not list |
| MapperGenerator.Quota | src/main/java/org/springframework/data/mybatis/repository/support/MybatisMapperGenerator.java:200-202 | the alias between the dialect's open and close quotes |
| MapperGenerator.SelectEntry | src/main/java/org/springframework/data/mybatis/repository/support/MybatisMapperGenerator.java:180 | every select entry ends with the close quote of its alias |
| MapperGenerator.SelectEntries | src/main/java/org/springframework/data/mybatis/repository/support/MybatisMapperGenerator.java:176-182 | one entry per plain property, in order |
| MapperGenerator.BuildSelectColumns | src/main/java/org/springframework/data/mybatis/repository/support/MybatisMapperGenerator.java:173-189 | the loop builds exactly the comma-separated select list without a trailing comma |
| MapperGenerator.AppendSelectEntries | src/main/java/org/springframework/data/mybatis/repository/support/MybatisMapperGenerator.java:176-182 | the loop appends each entry followed by a comma |
| MapperGenerator.Without | src/main/java/org/springframework/data/mybatis/repository/support/MybatisMapperGenerator.java:217 | removes every occurrence of the quote character |
| MapperGenerator.ColumnPairs | src/main/java/org/springframework/data/mybatis/repository/support/MybatisMapperGenerator.java:176-180 | one pair per property, in order: the property name without quote characters and the entity-qualified quoted column of its select entry |
| MapperGenerator.ParseSelectEntry | src/main/java/org/springframework/data/mybatis/repository/support/MybatisMapperGenerator.java:214-217 | fails with an index error iff splitting at ` as ` leaves no part; otherwise the column is the first part and the key holds no quote character |
| MapperGenerator.ParseReadableEntry | src/main/java/org/springframework/data/mybatis/repository/support/MybatisMapperGenerator.java:214-217 | an entry with no comma and ` as ` only after its column reads back as its property key and column |
| MapperGenerator.ParsedPairsOfEntries | src/main/java/org/springframework/data/mybatis/repository/support/MybatisMapperGenerator.java:211-219 | readable entries read back as exactly their properties' key/column pairs, in order |
| MapperGenerator.SelectPairsReadBack | src/main/java/org/springframework/data/mybatis/repository/support/MybatisMapperGenerator.java:209-219 | when every select entry is readable, splitting the joined select list at `,` and reading each piece gives exactly the properties' pairs |
| MapperGenerator.SelectListReadsBack | src/main/java/org/springframework/data/mybatis/repository/support/MybatisMapperGenerator.java:208-219 | when every select entry is readable, the read-back map is the property-to-column map |
| MapperGenerator.ParsedPairsFailureSticks | src/main/java/org/springframework/data/mybatis/repository/support/MybatisMapperGenerator.java:211-219 | once a piece cannot be read the whole read-back fails with that error |
| MapperGenerator.MapOf | src/main/java/org/springframework/data/mybatis/repository/support/MybatisMapperGenerator.java:208-219 | the map's keys are exactly the aliases put |
| MapperGenerator.MapOfLookup | src/main/java/org/springframework/data/mybatis/repository/support/MybatisMapperGenerator.java:218 | an alias put once maps to its column |
| MapperGenerator.ColumnsMapLookup | src/main/java/org/springframework/data/mybatis/repository/support/MybatisMapperGenerator.java:218 | a property key that no other property shares maps to that property's column, which is not empty |
| MapperGenerator.BuildColumnsMap | src/main/java/org/springframework/data/mybatis/repository/support/MybatisMapperGenerator.java:208-219 | the loop returns exactly the map read back from the select list: split at `,`, empty pieces skipped, each piece split at ` as ` with the unquoted last part as key and the first as column, later keys overwriting; a piece with no part fails with an index error |
| MapperGenerator.OrderTerms | src/main/java/org/springframework/data/mybatis/repository/support/MybatisMapperGenerator.java:222-226 | one order term per sort order, in order |
| MapperGenerator.BindEntries | src/main/java/org/springframework/data/mybatis/repository/support/MybatisMapperGenerator.java:242-244 | one `"key":"column",` entry per pair read back, in order, with `"` escaped in the column |
| MapperGenerator.BuildSorts | src/main/java/org/springframework/data/mybatis/repository/support/MybatisMapperGenerator.java:204-256 | returns exactly the specified clause: for a real sort the fixed ORDER BY over the map read back from the select list, for a null or unsorted sort the dynamic fragment over the same read-back pairs |
| MapperGenerator.BuildFixedOrderBy | src/main/java/org/springframework/data/mybatis/repository/support/MybatisMapperGenerator.java:208-230 | the fixed branch returns exactly the specified clause for the given orders, or the read-back failure |
| MapperGenerator.BuildDynamicSorts | src/main/java/org/springframework/data/mybatis/repository/support/MybatisMapperGenerator.java:231-254 | the dynamic branch returns exactly the bind prefix, the entries without the last comma and the `foreach` over `_sorts`, or the read-back failure |
| MapperGenerator.SortBranchesFailTogether | src/main/java/org/springframework/data/mybatis/repository/support/MybatisMapperGenerator.java:209-234 | both branches read the same select list back, so a real sort fails iff the dynamic fragment does |
| MapperGenerator.DynamicSortsReadBack | src/main/java/org/springframework/data/mybatis/repository/support/MybatisMapperGenerator.java:231-254 | when every select entry is readable the dynamic fragment binds exactly the declared properties' keys and columns |
| MapperGenerator.FixedOrderByOne | src/main/java/org/springframework/data/mybatis/repository/support/MybatisMapperGenerator.java:221-229 | one order gives ` order by ` and that order's term, with no trailing comma |
| MapperGenerator.AppendOrders | src/main/java/org/springframework/data/mybatis/repository/support/MybatisMapperGenerator.java:221-226 | the loop appends ` order by ` and each term followed by a comma |
| MapperGenerator.AppendBindEntries | src/main/java/org/springframework/data/mybatis/repository/support/MybatisMapperGenerator.java:233-244 | the loop over the pieces of the select list appends one bind entry per piece read back, or fails at the first piece it cannot read |
| MapperGenerator.NoOrdersGivesBareOrderBy | src/main/java/org/springframework/data/mybatis/repository/support/MybatisMapperGenerator.java:221-229 | a sort with no orders gives ` order by` (the trailing space removed) once the select list is read back, else the read-back failure |
| MapperGenerator.NullAndUnsortedAgree | src/main/java/org/springframework/data/mybatis/repository/support/MybatisMapperGenerator.java:207 | a null sort and the unsorted sort both give the dynamic fragment |
| MapperGenerator.OrderUsesMappedColumn | src/main/java/org/springframework/data/mybatis/repository/support/MybatisMapperGenerator.java:208-229 | for a select list that reads back, an order on a property key that no other property shares is rendered with that property's qualified column and the direction |
| ExampleGenerator.GuardTest | src/main/java/org/springframework/data/mybatis/repository/support/ExampleGenerator.java:56-121 | every guard begins with `_example.<name> != null and ` |
| ExampleGenerator.FragmentTexts | src/main/java/org/springframework/data/mybatis/repository/support/ExampleGenerator.java:51-128 | one fragment text per fragment, in order |
| ExampleGenerator.FragmentCounts | src/main/java/org/springframework/data/mybatis/repository/support/ExampleGenerator.java:55-125 | 9 fragments for a String property, 2 otherwise; the null check first, matcher guards after, EXACT without ignore-case for non-Strings |
| ExampleGenerator.ClausesSucceed | src/main/java/org/springframework/data/mybatis/repository/support/ExampleGenerator.java:58-124 | every fragment's condition clause is built without failure |
| ExampleGenerator.NullCheckText | src/main/java/org/springframework/data/mybatis/repository/support/ExampleGenerator.java:58-59 | the null-check fragment uses the empty operator and the clause ` is null` |
| ExampleGenerator.IgnoreCaseSymmetry | src/main/java/org/springframework/data/mybatis/repository/support/ExampleGenerator.java:63-111 | the column is upper-cased iff the guard requires ignoreCase iff the placeholder is upper-cased |
| ExampleGenerator.ExclusiveCount | src/main/java/org/springframework/data/mybatis/repository/support/ExampleGenerator.java:56-121 | pairwise exclusive guards: at most one holds, and one holds iff some guard holds |
| ExampleGenerator.GuardsExclusive | src/main/java/org/springframework/data/mybatis/repository/support/ExampleGenerator.java:56-121 | at most one guard holds; none without an entry; exactly one for every entry buildExample can produce |
| SimpleRepository.StoredMatcher | src/main/java/org/springframework/data/mybatis/repository/support/SimpleMybatisRepository.java:318-335 | DEFAULT and EXACT store `EXACT`, the others their own name; REGEX fails with IllegalArgument naming it |
| SimpleRepository.ExampleEntry | src/main/java/org/springframework/data/mybatis/repository/support/SimpleMybatisRepository.java:295-344 | no entry for the id or an ignored path; a null value gives an includeNull entry iff INCLUDE; Strings upper-cased under ignoreCase (a non-String value there is a ClassCast); others EXACT |
| SimpleRepository.FailureSticks | src/main/java/org/springframework/data/mybatis/repository/support/SimpleMybatisRepository.java:295-345 | once an entry fails, buildExample fails with that error |
| SimpleRepository.BuildExample | src/main/java/org/springframework/data/mybatis/repository/support/SimpleMybatisRepository.java:290-347 | the loop builds exactly the specified example map |
| SimpleRepository.ExamplesSucceed | src/main/java/org/springframework/data/mybatis/repository/support/SimpleMybatisRepository.java:295-345 | buildExample succeeds iff every property's entry succeeds |
| SimpleRepository.ExamplesContents | src/main/java/org/springframework/data/mybatis/repository/support/SimpleMybatisRepository.java:295-345 | with distinct names, the map holds exactly the entries produced, under their property names |
| SimpleRepository.EntryIsExpected | src/main/java/org/springframework/data/mybatis/repository/support/SimpleMybatisRepository.java:304-343 | every entry produced is of a shape the example fragments expect |
| SimpleRepository.ExactlyOneFragmentActive | src/main/java/org/springframework/data/mybatis/repository/support/SimpleMybatisRepository.java:304-343 | for a property in the example exactly one generated guard holds, for one absent none; the id and ignored paths are never in it |
| SimpleRepository.CheckUpdated | src/main/java/org/springframework/data/mybatis/repository/support/SimpleMybatisRepository.java:96-112 | zero rows fails with MybatisNoHintException; otherwise the same entity |
| SimpleRepository.UpdateStatement | src/main/java/org/springframework/data/mybatis/repository/support/SimpleMybatisRepository.java:97-107 | `_updateIgnoreNull` iff ignoring nulls, else `_update` |
| SimpleRepository.SaveIgnoreNull | src/main/java/org/springframework/data/mybatis/repository/support/SimpleMybatisRepository.java:144-157 | a new entity is inserted, an existing one updated ignoring nulls |
| SimpleRepository.FindAllById | src/main/java/org/springframework/data/mybatis/repository/support/SimpleMybatisRepository.java:214-223 | null ids answer the empty list; otherwise `_findAll` with `_ids` |
| SimpleRepository.CountByExample | src/main/java/org/springframework/data/mybatis/repository/support/SimpleMybatisRepository.java:264-269 | a single-row select of `_countByExample` with `_example` |
| SimpleRepository.FindAllPaged | src/main/java/org/springframework/data/mybatis/repository/support/SimpleMybatisRepository.java:276-282 | without a pageable the single page of `_findAll`; otherwise the pager over `_findByPager`/`_countByExample` |
| SimpleRepository.AssignIdsEffect | src/main/java/org/springframework/data/mybatis/repository/support/SimpleMybatisRepository.java:119-134 | ids are generated exactly for id properties with @GeneratedValue; it fails iff one has no generator; nothing else changes |
| SimpleRepository.AssignIdsOutcome | src/main/java/org/springframework/data/mybatis/repository/support/SimpleMybatisRepository.java:119-134 | the walk succeeds iff every id with @GeneratedValue has a generator |
| SimpleRepository.AssignIdsFailureKind | src/main/java/org/springframework/data/mybatis/repository/support/SimpleMybatisRepository.java:126-128 | the only failure is the IllegalArgumentException for a missing generator |
| SimpleRepository.AutoDefaultFollowsEntityType | src/main/java/org/springframework/data/mybatis/repository/support/SimpleMybatisRepository.java:124-125 | an AUTO id without a generator name resolves iff the type save hands to resolve is String, Long or Integer, UUID for String; the id property's own type plays no part |
| SimpleRepository.Save | src/main/java/org/springframework/data/mybatis/repository/support/SimpleMybatisRepository.java:114-142 | an existing entity is updated unchanged; a new one gets its generated ids, then is inserted, or the failure is reported |
| SimpleRepository.SaveAndSaveIgnoreNullAgree | src/main/java/org/springframework/data/mybatis/repository/support/SimpleMybatisRepository.java:114-157 | without generated ids save and saveIgnoreNull insert the same entity the same way |
| SimpleRepository.NoGeneratedIds | src/main/java/org/springframework/data/mybatis/repository/support/SimpleMybatisRepository.java:119-134 | without @GeneratedValue ids the entity is left as it was |
| MapperAssembler.DeleteAliasRule | src/main/java/org/springframework/data/mybatis/repository/support/MybatisSimpleRepositoryMapperGenerator.java:287-290 | the alias follows `delete` iff the dialect supports a delete alias |
| MapperAssembler.AppendAll | src/main/java/org/springframework/data/mybatis/repository/support/MybatisSimpleRepositoryMapperGenerator.java:193-219 | appending the parts in turn equals appending their concatenation |
| MapperAssembler.SetEntryShapes | src/main/java/org/springframework/data/mybatis/repository/support/MybatisSimpleRepositoryMapperGenerator.java:198-217 | the id is skipped, the version column becomes `col=col+1,`, other columns `col=#{...},`, wrapped in `<if>` when ignoring nulls |
| MapperAssembler.BuildUpdate | src/main/java/org/springframework/data/mybatis/repository/support/MybatisSimpleRepositoryMapperGenerator.java:184-283 | the method builds exactly the specified update statement |
| MapperAssembler.TrimTrailingComma | src/main/java/org/springframework/data/mybatis/repository/support/MybatisSimpleRepositoryMapperGenerator.java:248-250 | deleteCharAt removes one trailing comma and nothing else |
| MapperAssembler.InsertListsAgree | src/main/java/org/springframework/data/mybatis/repository/support/MybatisSimpleRepositoryMapperGenerator.java:461-533 | the column and value lists walk the same targets in the same order and have equal length; the k-th column and the k-th value belong to the same property, for plain properties and for embedded sub-properties (bound through their association) alike |
| MapperAssembler.BuildInsert | src/main/java/org/springframework/data/mybatis/repository/support/MybatisSimpleRepositoryMapperGenerator.java:455-538 | the method builds exactly the specified insert statement |
| MapperAssembler.ByIdClauses | src/main/java/org/springframework/data/mybatis/repository/support/MybatisSimpleRepositoryMapperGenerator.java:311-315 | fails iff the entity has no id |
| MapperAssembler.FindByIdStatement | src/main/java/org/springframework/data/mybatis/repository/support/MybatisSimpleRepositoryMapperGenerator.java:301-315 | fails with the `Could not find @Id/@EmbeddedId` MappingException iff the entity has no id |
| MapperAssembler.IdBindingsDiffer | src/main/java/org/springframework/data/mybatis/repository/support/MybatisSimpleRepositoryMapperGenerator.java:255-384 | composite update clauses bind `#{id.sub}`, findById and deleteById bind `#{sub}`; a simple id binds `#{id}` everywhere |
| MapperAssembler.IdsFilter | src/main/java/org/springframework/data/mybatis/repository/support/MybatisSimpleRepositoryMapperGenerator.java:438-449 | the `_ids` IN-foreach only for a non-composite id; an empty `<if>` for a composite id; nothing without an id |
| MapperAssembler.FindByPagerStatement | src/main/java/org/springframework/data/mybatis/repository/support/MybatisSimpleRepositoryMapperGenerator.java:336-347 | fails iff the dialect has no limit handler |
| MapperAssembler.SectionFailures | src/main/java/org/springframework/data/mybatis/repository/support/MybatisSimpleRepositoryMapperGenerator.java:133-177 | only `_findById` (no id) and `_findByPager` (no limit handler) can fail |
| MapperAssembler.NoIdStatements | src/main/java/org/springframework/data/mybatis/repository/support/MybatisSimpleRepositoryMapperGenerator.java:185-187 | without an id `_update`, `_updateIgnoreNull` and `_deleteById` are silently empty while `_findById` fails |
| MapperAssembler.EmitSucceeds | src/main/java/org/springframework/data/mybatis/repository/support/MybatisSimpleRepositoryMapperGenerator.java:133-177 | the sections succeed iff every section not skipped succeeds |
| MapperAssembler.SkippedSectionsEmitNothing | src/main/java/org/springframework/data/mybatis/repository/support/MybatisSimpleRepositoryMapperGenerator.java:133-177 | when every section already exists nothing is emitted |
| MapperAssembler.EmitPrefixError | src/main/java/org/springframework/data/mybatis/repository/support/MybatisSimpleRepositoryMapperGenerator.java:133-177 | a failure in a prefix of the sections is the failure of all of them |
| MapperAssembler.FirstFailureWins | src/main/java/org/springframework/data/mybatis/repository/support/MybatisSimpleRepositoryMapperGenerator.java:133-177 | the first section that is not skipped and fails decides the error |
| MapperAssembler.RenderWithoutConfiguration | src/main/java/org/springframework/data/mybatis/repository/support/MybatisSimpleRepositoryMapperGenerator.java:672-697 | with no configuration nothing exists, and render succeeds iff the entity has an id and the dialect a limit handler |
| MapperAssembler.RenderFailsOnBaseDialect | src/main/java/org/springframework/data/mybatis/repository/support/MybatisSimpleRepositoryMapperGenerator.java:169-171 | the base dialect, which has no limit handler, cannot render |
| MapperAssembler.RenderSucceedsWithIdAndLimit | src/main/java/org/springframework/data/mybatis/repository/support/MybatisSimpleRepositoryMapperGenerator.java:126-182 | an entity with an id under a dialect with a limit handler always renders |
| MapperAssembler.MissingIdReportedFirst | src/main/java/org/springframework/data/mybatis/repository/support/MybatisSimpleRepositoryMapperGenerator.java:153-155 | without an id render reports the `_findById` MappingException |
| MapperAssembler.MissingIdStopsEmit | src/main/java/org/springframework/data/mybatis/repository/support/MybatisSimpleRepositoryMapperGenerator.java:153-155 | without an id the section walk stops with the `_findById` error |
| MapperAssembler.EarlySectionsSucceed | src/main/java/org/springframework/data/mybatis/repository/support/MybatisSimpleRepositoryMapperGenerator.java:133-152 | the first six sections never fail |
| MapperAssembler.RenderWhenAllExist | src/main/java/org/springframework/data/mybatis/repository/support/MybatisSimpleRepositoryMapperGenerator.java:126-182 | when every section exists the mapper holds only the header, the namespace element and the end tag |
| Dialects.Quote | src/main/java/org/springframework/data/mybatis/repository/dialect/Dialect.java:82-93 | null stays null; an empty name fails; a back-quoted name gets the dialect quotes around its inner text; any other name is unchanged |
| Dialects.QuoteIdempotent | src/main/java/org/springframework/data/mybatis/repository/dialect/Dialect.java:82-93 | quoting a quoted name changes nothing |
| Dialects.Dialect.constructor | src/main/java/org/springframework/data/mybatis/repository/dialect/Dialect.java:39-68 | the type tables are exactly those of the dialect's constructor chain |
| Dialects.Dialect.RegisterBaseTypes | src/main/java/org/springframework/data/mybatis/repository/dialect/Dialect.java:39-68 | the base registrations, in order; sized names unchanged |
| Dialects.Dialect.RegisterH2Types | src/main/java/org/springframework/data/mybatis/repository/dialect/H2Dialect.java:33-59 | the H2 registrations on top of the base ones |
| Dialects.Dialect.RegisterDB2Types | src/main/java/org/springframework/data/mybatis/repository/dialect/DB2Dialect.java:68-91 | the DB2 registrations, including the capacity-254 BINARY entry |
| Dialects.Dialect.RegisterColumnType | src/main/java/org/springframework/data/mybatis/repository/dialect/Dialect.java:107-109 | maps the code to the name; nothing else changes |
| Dialects.Dialect.RegisterSizedColumnType | src/main/java/org/springframework/data/mybatis/repository/dialect/Dialect.java:111-113 | maps (code, capacity) to the name; nothing else changes |
| Dialects.Dialect.TypeName | src/main/java/org/springframework/data/mybatis/repository/dialect/Dialect.java:123-129 | the registered name iff the code is registered; otherwise the MappingException naming the code |
| Dialects.Dialect.SizedTypeName | src/main/java/org/springframework/data/mybatis/repository/dialect/Dialect.java:143-150 | the looked-up name, or the MappingException naming code and length |
| Dialects.SubclassesKeepBaseCodes | src/main/java/org/springframework/data/mybatis/repository/dialect/H2Dialect.java:33-34 | every code the base dialect registers stays registered in each subclass |
| Dialects.BitTypeNames | src/main/java/org/springframework/data/mybatis/repository/dialect/DB2Dialect.java:70 | BIT is `bit` in the base and Oracle dialects, `boolean` in H2, `smallint` in DB2 |
| Dialects.PagedSelect | src/main/java/org/springframework/data/mybatis/repository/dialect/H2Dialect.java:74-77 | fails iff the dialect has no limit handler; otherwise the plain select sits inside the paged statement |
| Dialects.H2OffsetOnlyWithFirstRow | src/main/java/org/springframework/data/mybatis/repository/dialect/H2Dialect.java:75-76 | the two H2 forms differ only by the ` offset #{offset}` suffix |
| Dialects.NativePagedSelect | src/main/java/org/springframework/data/mybatis/repository/dialect/DB2Dialect.java:57-65 | the base dialect throws, H2 has no native form, DB2 and Oracle start with their wrapper prefix + sql |
| Dialects.NativeWrapRecoversQuery | src/main/java/org/springframework/data/mybatis/repository/dialect/OracleDialect.java:48-55 | the original sql is found verbatim right after the wrapper prefix |
| IdentityFactory.AutoGeneratorName | src/main/java/org/springframework/data/mybatis/id/support/DefaultIdentityGeneratorFactory.java:89-96 | an explicit name is kept; an empty one becomes `uuid` for String ids, `sequenceTable` for Long/Integer ids, else stays empty |
| IdentityFactory.DefaultIdentityGeneratorFactory.constructor | src/main/java/org/springframework/data/mybatis/id/support/DefaultIdentityGeneratorFactory.java:61-65 | the registry starts empty |
| IdentityFactory.DefaultIdentityGeneratorFactory.AfterPropertiesSet | src/main/java/org/springframework/data/mybatis/id/support/DefaultIdentityGeneratorFactory.java:107-114 | registers the UUID generator under `uuid` and the table generator under `sequenceTable` |
| IdentityFactory.DefaultIdentityGeneratorFactory.Resolve | src/main/java/org/springframework/data/mybatis/id/support/DefaultIdentityGeneratorFactory.java:72-100 | a custom generator wins; SEQUENCE without one resolves to nothing |
| IdentityFactory.InitialisedFactory | src/main/java/org/springframework/data/mybatis/id/support/DefaultIdentityGeneratorFactory.java:107-114 | after initialisation the registry holds exactly `uuid` and `sequenceTable` |
| IdentityFactory.ResolveAfterInitialisation | src/main/java/org/springframework/data/mybatis/id/support/DefaultIdentityGeneratorFactory.java:72-100 | IDENTITY gives UUID, TABLE the table generator; AUTO follows the id type or the explicit name, and resolves iff the name is registered |
| TableGenerator.TableGenerator.constructor | src/main/java/org/springframework/data/mybatis/id/support/TableGenerator.java:84-114 | configured table (with the catalog quirk), column names when non-empty, initial value only when positive, allocation size always |
| TableGenerator.ConfiguredTable | src/main/java/org/springframework/data/mybatis/id/support/TableGenerator.java:92-99 | no name iff the table is empty; schema-qualified with a schema; qualify(schema, catalog) with only a catalog; the table itself otherwise |
| TableGenerator.TableGenerator.SettingsFor | src/main/java/org/springframework/data/mybatis/id/support/TableGenerator.java:117-158 | without an annotation the instance settings with segment owner.property; with one, a non-empty table sets the table name (schema-qualified, or qualify(schema, catalog) as written), non-empty pkColumnName and valueColumnName override, a positive initialValue is used, allocationSize always, segment pkColumnValue else owner.property |
| TableGenerator.TableGenerator.Generate | src/main/java/org/springframework/data/mybatis/id/support/TableGenerator.java:117-198 | the configuration stays; states, table and id advance as the hi/lo step function says |
| TableGenerator.InBlock | src/main/java/org/springframework/data/mybatis/id/support/TableGenerator.java:168-169 | inside a block the current value is returned and incremented, the table untouched |
| TableGenerator.Refresh | src/main/java/org/springframework/data/mybatis/id/support/TableGenerator.java:170-193 | an exhausted block reads the stored value (initialValue when absent), advances the row by incrementSize and opens the block [value, value + incrementSize) |
| TableGenerator.NextKeepsBlocksValid | src/main/java/org/springframework/data/mybatis/id/support/TableGenerator.java:168-189 | with incrementSize >= 1 every block keeps value <= upperLimitValue |
| TableGenerator.IdsIncrease | src/main/java/org/springframework/data/mybatis/id/support/TableGenerator.java:168-189 | while the table is ahead of the blocks, consecutive ids strictly increase |
| TableGenerator.BlockIdsConsecutive | src/main/java/org/springframework/data/mybatis/id/support/TableGenerator.java:168-169 | the ids served from one block are consecutive |
| Mapping.IsCompositeId | src/main/java/org/springframework/data/mybatis/mapping/MybatisPersistentPropertyImpl.java:182-184 | composite iff an id whose type is an entity; then it has sub-properties |
| Mapping.CreateAssociation | src/main/java/org/springframework/data/mybatis/mapping/MybatisPersistentPropertyImpl.java:99-104 | an embedded association exactly for @Embedded/@EmbeddedId properties, inverse to the property |
| Mapping.ColumnName | src/main/java/org/springframework/data/mybatis/mapping/MybatisPersistentPropertyImpl.java:107-114 | a non-blank @Column name, else the underscored property name |
| Mapping.JdbcTypeOf | src/main/java/org/springframework/data/mybatis/mapping/MybatisPersistentPropertyImpl.java:148-164 | the @JdbcType annotation, else the table entry for the type, UNDEFINED only when neither gives one |
| Mapping.BoxedTypesAgreeWithPrimitives | src/main/java/org/springframework/data/mybatis/mapping/MybatisPersistentPropertyImpl.java:59-77 | wrappers map like their primitives except Byte and Short (absent); Date and Timestamp both map to TIMESTAMP |
| Mapping.Persistent | src/main/java/org/springframework/data/mybatis/mapping/MybatisPersistentPropertyImpl.java:186-194 | exactly the non-transient properties |
| Mapping.PlainProperties | src/main/java/org/springframework/data/mybatis/mapping/MybatisPersistentPropertyImpl.java:176-194 | exactly the non-transient properties that are not associations |
| Mapping.Associations | src/main/java/org/springframework/data/mybatis/mapping/MybatisPersistentPropertyImpl.java:176-194 | exactly the non-transient association properties |
| Mapping.IdProperty | src/main/java/org/springframework/data/mybatis/mapping/MybatisPersistentPropertyImpl.java:79-96 | a non-transient @Id/@EmbeddedId property when there is one, none otherwise |
| Mapping.VersionProperty | src/main/java/org/springframework/data/mybatis/mapping/MybatisPersistentPropertyImpl.java:186-194 | a non-transient version property when there is one, none otherwise |
| Mapping.EmbeddedIdIsNotPlain | src/main/java/org/springframework/data/mybatis/mapping/MybatisPersistentPropertyImpl.java:176-179 | an @EmbeddedId property is never a plain column; when persistent it is an association |
| Common.ToUpper | src/main/java/org/springframework/data/mybatis/repository/support/SimpleMybatisRepository.java:314 | same length, every character upper-cased (ASCII letters) |
| Common.NatToStringInjective | src/main/java/org/springframework/data/mybatis/repository/query/MybatisQueryExecution.java:105 | different counters print differently, so `p0`, `p1`, ... never collide |
| Common.DropTrailingComma | src/main/java/org/springframework/data/mybatis/repository/support/MybatisMapperGenerator.java:184-186 | a trailing comma is removed (and only then); otherwise the text is unchanged |
| Common.CommaTerminatedIsJoin | src/main/java/org/springframework/data/mybatis/repository/support/MybatisMapperGenerator.java:176-186 | appending each part with a comma and dropping the last comma gives the comma-separated join |
| Common.FirstOccurrence | src/main/java/org/springframework/data/mybatis/repository/support/MybatisMapperGenerator.java:214 | a found occurrence lies at or after the start with none before it; none found means the separator occurs nowhere from the start on |
| Common.PiecesOfJoin | src/main/java/org/springframework/data/mybatis/repository/support/MybatisMapperGenerator.java:209 | splitting the comma join of comma-free parts gives the parts back |
| Common.PiecesOfSingleOccurrence | src/main/java/org/springframework/data/mybatis/repository/support/MybatisMapperGenerator.java:214 | a string with exactly one ` as ` splits into the text before and after it |
| Common.DropTrailingEmpty | src/main/java/org/springframework/data/mybatis/repository/support/MybatisMapperGenerator.java:209 | `String.split` drops only trailing empty pieces and leaves the last kept piece non-empty |

## Left out

- The text of the `<resultMap>` sections (`buildResultMap`, `buildInnerJoin*`) is a parameter; only its presence and order are modelled.
- Reflection over entity classes and annotations is replaced by an explicit entity and property descriptor.
- `StringUtils.qualify` and the sized lookup of Hibernate-style `TypeNames` are parameters.
- `String.toUpperCase`/`toLowerCase` are modelled on ASCII letters only.
- Java `long` overflow is not modelled. Java `int` wrap-around is modelled where it occurs in paging (`QueryExecution.Int32`).
- `ExampleMatcher` and its accessor are modelled as maps from property path to matcher settings.
- `Page`/`Slice` construction, the Spring conversion service and the MyBatis `SqlSessionTemplate` calls are parameters or request values; no database is modelled.
- `TupleBackedMap`: `isEmpty`, `containsValue`, `values` and `entrySet` are not modelled.
- `AbstractQuery.AliasIndex`: `get` and `containsKey` delegate to JPA `Tuple.get(alias)`, so the JPA provider decides which element a repeated alias gives. The model assumes the first.
- H2 has no native four-argument paged form in the model (it answers none). The five-argument `processSql` is treated as the dialect's paged form.
- The limit-handler capability flags (`supportsLimit`, `bindLimitParametersInReverseOrder`, `useMaxForLimit`) and `getLimitHandler` identity are constants that MyBatis consumes; they are not modelled.
- `TableGenerator`: the DDL (`sqlCreateStrings`), `afterPropertiesSet`'s database I/O, the console output, `synchronized`/`AtomicLong` concurrency and the compare-and-swap retry are not modelled. The row update succeeds on the first attempt.
- `TableGenerator.SelectQuery`, `UpdateQuery` and `InsertQuery` are given as texts without a property of their own.
- `MapperAssembler.Render`, `Dialects.WrapTableName`, `Dialects.WrapColumnName`, `MapperAssembler.DeleteAllStatement` and `SimpleRepository.Exists` carry no contract of their own, since it would only restate them; properties about them are stated in the lemmas listed above.
- Quote handling in the CTE inner-query scan: the quote handling of `advanceOverCTEInnerQuery` is modelled as written. The in-string flag is never reset and no character after a quote is examined (`QuotedInnerQueryRejected`). The code states no intended behaviour clearly enough to correct it.
- The stream execution's cursor and iterator are not modelled; only the parameters it passes are.
- `SimpleRepository.Save`, `SimpleRepository.GeneratorFor`: the persistent entity is not modelled. The type it reports to `resolve` is the parameter `entityType`.
- `SqlUtils.LocateQueryInCteStatement`: the console output of the located query (SQLUtils.java:61) is not modelled.
- `MapperAssembler.FindAllStatement`, `MapperAssembler.FindByPagerStatement`: the dynamic sort is the fragment over the declared properties (`DeclaredDynamicSorts`). It equals what `buildSorts(null)` builds whenever every select entry reads back (`DynamicSortsReadBack`). The exception `buildSorts` throws for a select list that does not read back is not carried into the rendered mapper.
- `MapperGenerator.ConditionClause`, `MapperGenerator.ConditionOperator`, `MapperGenerator.SelectColumns`, `MapperGenerator.From`, `MapperGenerator.Sorts`, `MapperAssembler.InsertStatement`, `MapperAssembler.UpdateStatement`, `MapperAssembler.ExampleCondition`, `MapperAssembler.DeleteByIdStatement`, `MapperAssembler.FindAllStatement`, `MapperAssembler.CountStatement`, `MapperAssembler.CountByExampleStatement`, `MapperAssembler.DeleteByExampleStatement`, `MapperAssembler.Emit`, `QueryExecution.ParameterMap`, `QueryExecution.CalculateTotal`, `QueryExecution.CalculateTotalAsWritten`, `SimpleRepository.AssignIds`, `SimpleRepository.Examples`, `TableGenerator.Next`, `ExampleGenerator.Fragments` and `ExampleGenerator.Generate` are the specification functions of the model. They carry no contract of their own, since it would only restate them. The methods proved equal to them and the lemmas about them are in the table: the clause lemmas (`ParameterlessClauses` to `EmptyOperatorTypes`), `BuildSelectColumns`, `BuildSorts`, `BuildInsert`, `InsertListsAgree`, `BuildUpdate`, `SetEntryShapes`, `SectionFailures`, `NoIdStatements`, `EmitSucceeds`, `FirstFailureWins`, `BindParameters`, `ParameterMapKeys`, `ParameterMapBindsEach`, `CalculateTotalIsExact`, `AsWrittenIsOnePageShort`, `AssignIdsEffect`, `ExamplesContents`, `Generate` of the class `TableGenerator`, `InBlock`, `Refresh`, `FragmentCounts` and `GuardsExclusive` (the latter two carry the properties of every fragment that `ExampleCondition` joins for the non-id plain properties, MybatisSimpleRepositoryMapperGenerator.java:413-425).

## Findings

| source | as written | input that shows it | evidently intended | confidence | as-written member | corrected member |
|---|---|---|---|---|---|---|
| src/main/java/org/springframework/data/mybatis/repository/query/MybatisQueryExecution.java:264 | `calculateTotal` returns `(pageNumber - 1) * pageSize + rows` on a later, partly filled page, although page numbers count from 0; `PagedTotal` passes that value to `PageImpl`, which may re-derive the total from the offset (`PageImplMasksUndercount`) | pageNumber 1, pageSize 10, 3 rows: calculateTotal returns 3 | calculateTotal returns offset + rows = 13 (`PagedTotalIntended`) | not executed | QueryExecution.AsWrittenUndercounts | QueryExecution.CalculateTotalIsExact |
| src/main/java/org/springframework/data/mybatis/repository/query/MybatisQueryExecution.java:96-97 | for an exists query method called without arguments, `doExecute` returns the `selectList` row list, where it otherwise answers a boolean; `execute` (lines 74-87) then hands the list to the conversion service, so the caller sees whatever that conversion makes of it | an `existsBy...()` method without parameters whose statement returns one row: `doExecute` returns the one-element list | true iff some row came back, as with arguments | not executed | QueryExecution.ExistsWithoutArgumentsReturnsRows | QueryExecution.ExistsResult |
