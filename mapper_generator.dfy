/** MybatisMapperGenerator: the SQL fragments shared by the generated mapper
    statements and the derived queries — the operator and right-hand side of
    one condition per Spring Data `Part.Type`, the select list, the from
    clause, and the `order by` clause (fixed, or bound at run time from the
    `_sorts` parameter). */
module MapperGenerator {
  import opened Common
  import opened Mapping
  import opened Dialects

  /** Spring Data's `Part.Type`. */
  datatype PartType =
    | BETWEEN | IS_NOT_NULL | IS_NULL | LESS_THAN | LESS_THAN_EQUAL | GREATER_THAN
    | GREATER_THAN_EQUAL | BEFORE | AFTER | NOT_LIKE | LIKE | STARTING_WITH
    | ENDING_WITH | IS_NOT_EMPTY | IS_EMPTY | NOT_CONTAINING | CONTAINING | NOT_IN
    | IN | NEAR | WITHIN | REGEX | EXISTS | TRUE | FALSE
    | NEGATING_SIMPLE_PROPERTY | SIMPLE_PROPERTY

  /** Spring Data's `Part.IgnoreCaseType`. */
  datatype IgnoreCaseType = NEVER | ALWAYS | WHEN_POSSIBLE

  predicate UpperCased(ignoreCase: IgnoreCaseType)
  {
    ignoreCase == ALWAYS || ignoreCase == WHEN_POSSIBLE
  }

  /** `#{name}`: a MyBatis parameter placeholder. */
  function Placeholder(name: string): string
  {
    "#{" + name + "}"
  }

  /** The placeholder, wrapped in `upper(...)` when case is ignored. */
  function CaseFolded(ignoreCase: IgnoreCaseType, name: string): string
  {
    if UpperCased(ignoreCase) then UpperPlaceholder(name) else Placeholder(name)
  }

  /** `upper(#{name})`. */
  function UpperPlaceholder(name: string): string
  {
    "upper(" + Placeholder(name) + ")"
  }

  /** `properties[i]` of a Java `String[]` that may be null or too short. */
  function Parameter(properties: Option<seq<string>>, i: nat): Result<string, Failure>
  {
    match properties
    case None => Err(NullPointer)
    case Some(ps) => if i < |ps| then Ok(ps[i]) else Err(IndexOutOfBounds)
  }

  /** buildConditionCaluse: the right-hand side of the condition — fixed text
      for the parameterless types, two placeholders for BETWEEN, a `foreach`
      over the first parameter for IN and NOT_IN, and the first parameter's
      placeholder in its template for every other type. */
  function ConditionClause(t: PartType, ignoreCase: IgnoreCaseType, properties: Option<seq<string>>): Result<string, Failure>
  {
    if TakesNoParameter(t) then Ok(FixedClause(t))
    else if t == BETWEEN then
      (match Parameter(properties, 0)
       case Err(e) => Err(e)
       case Ok(p0) =>
         match Parameter(properties, 1)
         case Err(e) => Err(e)
         case Ok(p1) => Ok(" " + Placeholder(p0) + " and " + Placeholder(p1)))
    else if t == IN || t == NOT_IN then InClause(properties)
    else
      match Parameter(properties, 0)
      case Err(e) => Err(e)
      case Ok(p0) => Ok(ClauseTemplate(t).0 + CaseFolded(ignoreCase, p0) + ClauseTemplate(t).1)
  }

  /** The clause of a condition that takes no parameter. */
  function FixedClause(t: PartType): string
    requires TakesNoParameter(t)
  {
    match t
    case IS_NOT_NULL => " is not null"
    case IS_NULL => " is null"
    case IS_EMPTY => "''"
    case IS_NOT_EMPTY => "''"
    case TRUE => "=true"
    case FALSE => "=false"
  }

  /** What surrounds the (possibly upper-cased) placeholder of a one-value
      condition: the `%` wildcards of the like-family, nothing otherwise. */
  function ClauseTemplate(t: PartType): (string, string)
  {
    match t
    case LIKE => ("concat('%',", ",'%')")
    case NOT_LIKE => ("concat('%',", ",'%')")
    case CONTAINING => ("concat('%',", ",'%')")
    case NOT_CONTAINING => ("concat('%',", ",'%')")
    case STARTING_WITH => ("concat(", ",'%')")
    case ENDING_WITH => ("concat('%',", ")")
    case _ => ("", "")
  }

  function InClause(properties: Option<seq<string>>): Result<string, Failure>
  {
    match Parameter(properties, 0)
    case Err(e) => Err(e)
    case Ok(p0) =>
      Ok("<foreach item=\"item\" index=\"index\" collection=\"" + p0 +
         "\" open=\"(\" separator=\",\" close=\")\">#{item}</foreach>")
  }

  /** The conditions that take no parameter: their clause is fixed text. */
  predicate TakesNoParameter(t: PartType)
  {
    t == IS_NOT_NULL || t == IS_NULL || t == IS_EMPTY || t == IS_NOT_EMPTY || t == TRUE || t == FALSE
  }

  /** Exactly the parameterless conditions are safe with a null or empty
      parameter array; every other one reads `properties[0]`. */
  lemma ParameterlessClauses(t: PartType, ignoreCase: IgnoreCaseType)
    ensures TakesNoParameter(t) <==> ConditionClause(t, ignoreCase, None).Ok?
    ensures TakesNoParameter(t) <==> ConditionClause(t, ignoreCase, Some([])).Ok?
    ensures ConditionClause(t, ignoreCase, None).Err? ==> ConditionClause(t, ignoreCase, None).error == NullPointer
  {
    if !TakesNoParameter(t) {
      FirstParameterMissing(t, ignoreCase, None);
      FirstParameterMissing(t, ignoreCase, Some([]));
    }
  }

  /** A condition that takes a parameter fails with the error of reading the
      first one when it is missing. */
  lemma FirstParameterMissing(t: PartType, ignoreCase: IgnoreCaseType, properties: Option<seq<string>>)
    requires !TakesNoParameter(t)
    requires Parameter(properties, 0).Err?
    ensures ConditionClause(t, ignoreCase, properties) == Err(Parameter(properties, 0).error)
  {
  }

  /** BETWEEN needs two parameters: one is not enough. */
  lemma BetweenNeedsTwo(ignoreCase: IgnoreCaseType, p0: string, p1: string)
    ensures ConditionClause(BETWEEN, ignoreCase, Some([p0])) == Err(IndexOutOfBounds)
    ensures ConditionClause(BETWEEN, ignoreCase, Some([p0, p1])) ==
            Ok(" " + Placeholder(p0) + " and " + Placeholder(p1))
  {
  }

  /** Ignoring case changes a one-value clause in one place only: the placeholder
      becomes `upper(placeholder)`; ALWAYS and WHEN_POSSIBLE agree. */
  lemma IgnoreCaseOnlyWrapsPlaceholder(t: PartType, p0: string, rest: seq<string>)
    requires !TakesNoParameter(t) && t != BETWEEN && t != IN && t != NOT_IN
    ensures exists prefix, suffix ::
      ConditionClause(t, NEVER, Some([p0] + rest)) == Ok(prefix + Placeholder(p0) + suffix) &&
      ConditionClause(t, ALWAYS, Some([p0] + rest)) == Ok(prefix + UpperPlaceholder(p0) + suffix) &&
      ConditionClause(t, WHEN_POSSIBLE, Some([p0] + rest)) == ConditionClause(t, ALWAYS, Some([p0] + rest))
  {
    var (prefix, suffix) := ClauseTemplate(t);
    var ps := Some([p0] + rest);
    assert Parameter(ps, 0) == Ok(p0);
    OneValueClause(t, NEVER, ps, p0);
    OneValueClause(t, ALWAYS, ps, p0);
    OneValueClause(t, WHEN_POSSIBLE, ps, p0);
    assert ConditionClause(t, NEVER, ps) == Ok(prefix + Placeholder(p0) + suffix);
    assert ConditionClause(t, ALWAYS, ps) == Ok(prefix + UpperPlaceholder(p0) + suffix);
  }

  lemma OneValueClause(t: PartType, ignoreCase: IgnoreCaseType, properties: Option<seq<string>>, p0: string)
    requires !TakesNoParameter(t) && t != BETWEEN && t != IN && t != NOT_IN
    requires Parameter(properties, 0) == Ok(p0)
    ensures ConditionClause(t, ignoreCase, properties) == Ok(ClauseTemplate(t).0 + CaseFolded(ignoreCase, p0) + ClauseTemplate(t).1)
  {
  }

  /** Wildcards: containing-style matches put `%` on both sides, starting-with
      only after the value, ending-with only before it. */
  lemma WildcardPlacement()
    ensures ClauseTemplate(CONTAINING) == ("concat('%',", ",'%')") == ClauseTemplate(LIKE)
    ensures ClauseTemplate(STARTING_WITH) == ("concat(", ",'%')")
    ensures ClauseTemplate(ENDING_WITH) == ("concat('%',", ")")
  {
  }

  /** buildConditionOperate: the comparison operator, CDATA-escaped for XML. */
  function ConditionOperator(t: PartType): string
  {
    match t
    case BETWEEN => " between"
    case IS_EMPTY => "="
    case SIMPLE_PROPERTY => "="
    case IS_NOT_EMPTY => "<![CDATA[<>]]>"
    case NEGATING_SIMPLE_PROPERTY => "<![CDATA[<>]]>"
    case LESS_THAN => "<![CDATA[<]]>"
    case BEFORE => "<![CDATA[<]]>"
    case LESS_THAN_EQUAL => "<![CDATA[<=]]>"
    case GREATER_THAN => "<![CDATA[>]]>"
    case AFTER => "<![CDATA[>]]>"
    case GREATER_THAN_EQUAL => "<![CDATA[>=]]>"
    case LIKE => " like "
    case STARTING_WITH => " like "
    case ENDING_WITH => " like "
    case NOT_LIKE => " not" + " like "
    case CONTAINING => " like "
    case NOT_CONTAINING => " not" + " like "
    case IN => " in "
    case NOT_IN => " not" + " in "
    case _ => ""
  }

  /** The negated part types, paired with the positive type they negate. */
  function Negates(t: PartType): Option<PartType>
  {
    match t
    case NOT_LIKE => Some(LIKE)
    case NOT_CONTAINING => Some(CONTAINING)
    case NOT_IN => Some(IN)
    case _ => None
  }

  /** The operator begins with " not" exactly for the three negated match types,
      and is then " not" followed by the operator of the positive type. */
  lemma NegatedOperators(t: PartType)
    ensures (|ConditionOperator(t)| >= 4 && ConditionOperator(t)[..4] == " not") <==> Negates(t).Some?
    ensures Negates(t).Some? ==> ConditionOperator(t) == " not" + ConditionOperator(Negates(t).value)
  {
    var op := ConditionOperator(t);
    if Negates(t).None? && |op| >= 4 {
      assert op[0] != ' ' || op[1] != 'n';
    }
  }

  /** The negated match types share the clause of the positive ones: the
      negation lives in the operator alone. */
  lemma NegatedClausesAgree(t: PartType, ignoreCase: IgnoreCaseType, properties: Option<seq<string>>)
    requires Negates(t).Some?
    ensures ConditionClause(t, ignoreCase, properties) == ConditionClause(Negates(t).value, ignoreCase, properties)
  {
    if t == NOT_LIKE {
      SameTemplateSameClause(NOT_LIKE, LIKE, ignoreCase, properties);
    } else if t == NOT_CONTAINING {
      SameTemplateSameClause(NOT_CONTAINING, CONTAINING, ignoreCase, properties);
    }
  }

  /** Two one-value conditions with the same template have the same clause. */
  lemma SameTemplateSameClause(t: PartType, u: PartType, ignoreCase: IgnoreCaseType, properties: Option<seq<string>>)
    requires !TakesNoParameter(t) && t != BETWEEN && t != IN && t != NOT_IN
    requires !TakesNoParameter(u) && u != BETWEEN && u != IN && u != NOT_IN
    requires ClauseTemplate(t) == ClauseTemplate(u)
    ensures ConditionClause(t, ignoreCase, properties) == ConditionClause(u, ignoreCase, properties)
  {
  }

  /** Conditions whose operator is empty put the whole comparison in the clause. */
  lemma EmptyOperatorTypes(t: PartType)
    ensures ConditionOperator(t) == "" <==>
      t in {IS_NOT_NULL, IS_NULL, NEAR, WITHIN, REGEX, EXISTS, TRUE, FALSE}
  {
  }

  /** quota(alias): the alias between the dialect's quote characters. */
  function Quota(kind: DialectKind, alias: string): (r: string)
    ensures |r| == |alias| + 2 && r[0] == OpenQuote(kind) && r[|r| - 1] == CloseQuote(kind)
    ensures r[1..|r| - 1] == alias
  {
    [OpenQuote(kind)] + alias + [CloseQuote(kind)]
  }

  /** One entry of the select list: `"alias".column as "property"`. */
  function SelectEntry(kind: DialectKind, e: Entity, p: Property): (r: string)
    ensures r != [] && r[|r| - 1] == CloseQuote(kind)
  {
    Quota(kind, e.entityName) + "." + WrapColumnName(kind, ColumnName(p)) + " as " + Quota(kind, p.name)
  }

  function SelectEntries(kind: DialectKind, e: Entity, props: seq<Property>): (r: seq<string>)
    ensures |r| == |props|
    ensures forall k :: 0 <= k < |props| ==> r[k] == SelectEntry(kind, e, props[k])
  {
    seq(|props|, k requires 0 <= k < |props| => SelectEntry(kind, e, props[k]))
  }

  /** The select list: the entries of the plain properties, comma-separated. */
  function SelectColumns(kind: DialectKind, e: Entity): string
  {
    Join(SelectEntries(kind, e, PlainProperties(e.declared)), ",")
  }

  /** buildSelectColumns: append each entry followed by a comma, then delete the
      last comma. */
  method BuildSelectColumns(kind: DialectKind, e: Entity) returns (r: string)
    ensures r == SelectColumns(kind, e)
  {
    var props := PlainProperties(e.declared);
    var builder := AppendSelectEntries(kind, e, props);
    ghost var full := builder;
    if |builder| > 0 && builder[|builder| - 1] == ',' {
      builder := builder[..|builder| - 1];
    }
    assert builder == DropTrailingComma(full);
    CommaTerminatedIsJoin(SelectEntries(kind, e, props));
    return builder;
  }

  /** The property handler of buildSelectColumns: one comma-terminated entry
      per visited property. */
  method AppendSelectEntries(kind: DialectKind, e: Entity, props: seq<Property>) returns (builder: string)
    ensures builder == Concat(CommaTerminated(SelectEntries(kind, e, props)))
  {
    builder := "";
    var i := 0;
    while i < |props|
      invariant 0 <= i <= |props|
      invariant builder == Concat(CommaTerminated(SelectEntries(kind, e, props[..i])))
    {
      var entry := SelectEntry(kind, e, props[i]);
      SelectEntriesStep(kind, e, props, i);
      builder := builder + (entry + ",");
      i := i + 1;
    }
    assert props[..i] == props;
  }

  lemma SelectEntriesStep(kind: DialectKind, e: Entity, props: seq<Property>, i: nat)
    requires i < |props|
    ensures Concat(CommaTerminated(SelectEntries(kind, e, props[..i + 1]))) ==
            Concat(CommaTerminated(SelectEntries(kind, e, props[..i]))) + (SelectEntry(kind, e, props[i]) + ",")
  {
    assert SelectEntries(kind, e, props[..i + 1]) == SelectEntries(kind, e, props[..i]) + [SelectEntry(kind, e, props[i])];
    CommaTerminatedSnoc(SelectEntries(kind, e, props[..i]), SelectEntry(kind, e, props[i]));
  }

  /** buildFrom: `table "alias"`. */
  function From(kind: DialectKind, e: Entity): string
  {
    WrapTableName(kind, e.tableName) + " " + Quota(kind, e.entityName)
  }

  // ---------------------------------------------------------------------------
  // Sorting

  datatype Direction = ASC | DESC

  function DirectionName(d: Direction): string
  {
    match d
    case ASC => "ASC"
    case DESC => "DESC"
  }

  datatype Order = Order(property: string, direction: Direction)

  /** The `Sort` argument: null, the `Sort.unsorted()` instance, or a list of orders. */
  datatype Sort = NullSort | Unsorted | Sorted(orders: seq<Order>)

  /** The string with every occurrence of c removed (`replace(String.valueOf(c), "")`). */
  function Without(s: string, c: char): (r: string)
    ensures c !in r
    ensures |r| <= |s|
  {
    if s == [] then [] else (if s[0] == c then [] else [s[0]]) + Without(s[1..], c)
  }

  /** `replace("\"", "\\\"")`: every double quote preceded by a backslash. */
  function EscapeQuotes(s: string): string
  {
    if s == [] then [] else (if s[0] == '"' then "\\\"" else [s[0]]) + EscapeQuotes(s[1..])
  }

  /** The key of a select entry in the column map: the property name without
      quote characters. */
  function ColumnKey(kind: DialectKind, p: Property): string
  {
    Without(Without(Quota(kind, p.name), OpenQuote(kind)), CloseQuote(kind))
  }

  /** The value of a select entry in the column map: the qualified column. */
  function ColumnValue(kind: DialectKind, e: Entity, p: Property): string
  {
    Quota(kind, e.entityName) + "." + WrapColumnName(kind, ColumnName(p))
  }

  function ColumnPairs(kind: DialectKind, e: Entity, props: seq<Property>): (r: seq<(string, string)>)
    ensures |r| == |props|
    ensures forall k :: 0 <= k < |props| ==> r[k] == (ColumnKey(kind, props[k]), ColumnValue(kind, e, props[k]))
  {
    seq(|props|, k requires 0 <= k < |props| => (ColumnKey(kind, props[k]), ColumnValue(kind, e, props[k])))
  }

  /** The map that `put`s the pairs in order: later pairs overwrite earlier ones. */
  function MapOf(pairs: seq<(string, string)>): (r: map<string, string>)
    ensures forall key :: key in r <==> exists k :: 0 <= k < |pairs| && pairs[k].0 == key
  {
    if pairs == [] then map[]
    else
      var init := pairs[..|pairs| - 1];
      var m := MapOf(init);
      assert forall k :: 0 <= k < |init| ==> init[k] == pairs[k];
      m[pairs[|pairs| - 1].0 := pairs[|pairs| - 1].1]
  }

  /** A key put only once is mapped to the value it was put with. */
  lemma {:induction false} MapOfLookup(pairs: seq<(string, string)>, k: nat)
    requires k < |pairs|
    requires forall j :: 0 <= j < |pairs| && j != k ==> pairs[j].0 != pairs[k].0
    ensures MapOf(pairs)[pairs[k].0] == pairs[k].1
  {
    var init := pairs[..|pairs| - 1];
    if k < |pairs| - 1 {
      assert init[k] == pairs[k];
      assert forall j :: 0 <= j < |init| && j != k ==> init[j] == pairs[j];
      MapOfLookup(init, k);
    }
  }

  /** The column map built from the select list. */
  function ColumnsMap(kind: DialectKind, e: Entity, props: seq<Property>): map<string, string>
  {
    MapOf(ColumnPairs(kind, e, props))
  }

  /** One `order by` term: the mapped column when the property is a known key
      with a non-empty column, the property name itself otherwise. */
  function OrderTerm(columns: map<string, string>, o: Order): string
  {
    (if o.property in columns && columns[o.property] != "" then columns[o.property] else o.property)
    + " " + DirectionName(o.direction)
  }

  function OrderTerms(columns: map<string, string>, orders: seq<Order>): (r: seq<string>)
    ensures |r| == |orders|
    ensures forall k :: 0 <= k < |orders| ==> r[k] == OrderTerm(columns, orders[k])
  {
    seq(|orders|, k requires 0 <= k < |orders| => OrderTerm(columns, orders[k]))
  }

  /** One entry of the run-time column map literal: `"key":"value",`, the
      value's double quotes escaped. */
  function BindEntry(pair: (string, string)): string
  {
    "\"" + pair.0 + "\":\"" + EscapeQuotes(pair.1) + "\","
  }

  function BindEntries(pairs: seq<(string, string)>): (r: seq<string>)
    ensures |r| == |pairs|
    ensures forall k :: 0 <= k < |pairs| ==> r[k] == BindEntry(pairs[k])
  {
    seq(|pairs|, k requires 0 <= k < |pairs| => BindEntry(pairs[k]))
  }

  const BindPrefix := "<if test=\"_sorts != null\">" + "<bind name=\"_columnsMap\" value='#{"

  const DynamicOrderBy :=
    "}' />" + " order by " +
    "<foreach item=\"item\" index=\"idx\" collection=\"_sorts\" open=\"\" separator=\",\" close=\"\">" +
    "<if test=\"item.ignoreCase\">lower(</if>" + "${_columnsMap[item.property]}" +
    "<if test=\"item.ignoreCase\">)</if>" + " ${item.direction}" +
    "</foreach>" + "</if>"

  /** The pairs `map.put(key, val)` takes in the first loop of buildSorts: a
      piece of the select list is read back by splitting it at ` as `; the
      column is the first part, the key the last part without its quote
      characters. A piece made only of ` as ` separators splits into nothing,
      and reading its last part fails. */
  function ParseSelectEntry(kind: DialectKind, s: string): (r: Result<(string, string), Failure>)
    ensures r.Err? <==> Split(s, " as ") == []
    ensures r.Ok? ==> r.value.1 == Split(s, " as ")[0]
    ensures r.Ok? ==> OpenQuote(kind) !in r.value.0 && CloseQuote(kind) !in r.value.0
  {
    var ss := Split(s, " as ");
    if ss == [] then Err(IndexOutOfBounds)
    else Ok((Without(Without(ss[|ss| - 1], OpenQuote(kind)), CloseQuote(kind)), ss[0]))
  }

  /** The pairs of the pieces of the select list in order, skipping empty
      pieces; the first piece that cannot be read ends the loop. */
  function ParsedPairs(kind: DialectKind, pieces: seq<string>): Result<seq<(string, string)>, Failure>
  {
    if pieces == [] then Ok([])
    else
      match ParsedPairs(kind, pieces[..|pieces| - 1])
      case Err(f) => Err(f)
      case Ok(pairs) =>
        var s := pieces[|pieces| - 1];
        if s == "" then Ok(pairs)
        else match ParseSelectEntry(kind, s)
          case Err(f) => Err(f)
          case Ok(pair) => Ok(pairs + [pair])
  }

  /** The column map buildSorts reads back from the select list text. */
  function ParsedColumnsMap(kind: DialectKind, select: string): Result<map<string, string>, Failure>
  {
    match ParsedPairs(kind, Split(select, ","))
    case Err(f) => Err(f)
    case Ok(pairs) => Ok(MapOf(pairs))
  }

  /** The dynamic `order by` over the given key/column pairs: a MyBatis
      fragment that binds the map literal and orders by `_sorts`. */
  function DynamicSortsOf(pairs: seq<(string, string)>): string
  {
    BindPrefix + DropTrailingComma(Concat(BindEntries(pairs))) + DynamicOrderBy
  }

  /** The dynamic `order by` of a null or unsorted sort, over the pairs read
      back from the select list (which fails when that text cannot be read). */
  function DynamicSorts(kind: DialectKind, e: Entity): Result<string, Failure>
  {
    match ParsedPairs(kind, Split(SelectColumns(kind, e), ","))
    case Err(f) => Err(f)
    case Ok(pairs) => Ok(DynamicSortsOf(pairs))
  }

  /** The dynamic `order by` over the declared properties' own pairs. */
  function DeclaredDynamicSorts(kind: DialectKind, e: Entity): string
  {
    DynamicSortsOf(ColumnPairs(kind, e, PlainProperties(e.declared)))
  }

  /** The fixed `order by` list of a real sort: one term per order, separated
      by commas. */
  function FixedOrderBy(columns: map<string, string>, orders: seq<Order>): string
  {
    var text := " order by " + Concat(CommaTerminated(OrderTerms(columns, orders)));
    text[..|text| - 1]
  }

  /** Reference definition of buildSorts. A real sort becomes a fixed
      `order by` list over the column map read back from the select list
      (which fails when that text cannot be read); a null or unsorted sort
      becomes the dynamic fragment. */
  function Sorts(kind: DialectKind, e: Entity, sort: Sort): Result<string, Failure>
  {
    match sort
    case Sorted(orders) =>
      (match ParsedColumnsMap(kind, SelectColumns(kind, e))
       case Err(f) => Err(f)
       case Ok(columns) => Ok(FixedOrderBy(columns, orders)))
    case _ => DynamicSorts(kind, e)
  }

  /** buildSorts: a fixed list for a real sort, the run-time fragment otherwise. */
  method BuildSorts(kind: DialectKind, e: Entity, sort: Sort) returns (r: Result<string, Failure>)
    ensures r == Sorts(kind, e, sort)
  {
    if sort.Sorted? {
      r := BuildFixedOrderBy(kind, e, sort.orders);
    } else {
      r := BuildDynamicSorts(kind, e);
    }
  }

  /** The branch of buildSorts for a real sort: read the column map back
      from the select list, then append one term per order. */
  method BuildFixedOrderBy(kind: DialectKind, e: Entity, orders: seq<Order>) returns (r: Result<string, Failure>)
    ensures r == Sorts(kind, e, Sorted(orders))
  {
    var select := BuildSelectColumns(kind, e);
    var columns := BuildColumnsMap(kind, select);
    if columns.Err? {
      return Err(columns.error);
    }
    var builder := AppendOrders(columns.value, orders);
    r := Ok(builder[..|builder| - 1]);
  }

  /** The branch of buildSorts for a null or unsorted sort: the prefix, the
      map entries read back from the select list without the last comma, and
      the `foreach` over `_sorts`. */
  method BuildDynamicSorts(kind: DialectKind, e: Entity) returns (r: Result<string, Failure>)
    ensures r == DynamicSorts(kind, e)
  {
    var select := BuildSelectColumns(kind, e);
    var entries := AppendBindEntries(kind, Split(select, ","));
    if entries.Err? {
      return Err(entries.error);
    }
    var builder := BindPrefix + entries.value;
    ghost var full := builder;
    if builder[|builder| - 1] == ',' {
      builder := builder[..|builder| - 1];
    }
    assert builder == DropTrailingComma(full);
    assert BindPrefix[|BindPrefix| - 1] == '{';
    DropTrailingCommaAfter(BindPrefix, entries.value);
    r := Ok(builder + DynamicOrderBy);
  }

  /** The loop of the dynamic branch over the pieces of the select list:
      skip empty pieces, and append `"key":"value",` for each piece read
      back. */
  method AppendBindEntries(kind: DialectKind, arr: seq<string>) returns (r: Result<string, Failure>)
    ensures var parsed := ParsedPairs(kind, arr);
            r == if parsed.Ok? then Ok(Concat(BindEntries(parsed.value))) else Err(parsed.error)
  {
    var builder := "";
    ghost var pairs: seq<(string, string)> := [];
    var i := 0;
    while i < |arr|
      invariant 0 <= i <= |arr|
      invariant builder == Concat(BindEntries(pairs))
      invariant ParsedPairs(kind, arr[..i]) == Ok(pairs)
    {
      var s := arr[i];
      if s != "" {
        var ss := Split(s, " as ");
        if |ss| == 0 {
          ParsedPairsFails(kind, arr, i, pairs);
          return Err(IndexOutOfBounds);
        }
        var key := ss[|ss| - 1];
        var val := ss[0];
        key := Without(Without(key, OpenQuote(kind)), CloseQuote(kind));
        ParsedPairsReads(kind, arr, i, pairs, (key, val));
        BindEntriesSnoc(builder, pairs, key, val);
        pairs := pairs + [(key, val)];
        val := EscapeQuotes(val);
        builder := builder + ("\"" + key + "\":\"" + val + "\",");
      } else {
        ParsedPairsSkips(kind, arr, i, pairs);
      }
      i := i + 1;
    }
    assert arr[..i] == arr;
    r := Ok(builder);
  }

  /** The first loop of the fixed branch: split the select list at `,`, skip
      empty pieces, and `map.put(key, val)` for each piece read back. */
  method BuildColumnsMap(kind: DialectKind, select: string) returns (r: Result<map<string, string>, Failure>)
    ensures r == ParsedColumnsMap(kind, select)
  {
    var arr := Split(select, ",");
    var columns: map<string, string> := map[];
    ghost var pairs: seq<(string, string)> := [];
    var i := 0;
    while i < |arr|
      invariant 0 <= i <= |arr|
      invariant columns == MapOf(pairs)
      invariant ParsedPairs(kind, arr[..i]) == Ok(pairs)
    {
      var s := arr[i];
      if s != "" {
        var ss := Split(s, " as ");
        if |ss| == 0 {
          ParsedPairsFails(kind, arr, i, pairs);
          return Err(IndexOutOfBounds);
        }
        var key := ss[|ss| - 1];
        var val := ss[0];
        key := Without(Without(key, OpenQuote(kind)), CloseQuote(kind));
        ParsedPairsReads(kind, arr, i, pairs, (key, val));
        MapOfSnoc(pairs, key, val);
        columns := columns[key := val];
        pairs := pairs + [(key, val)];
      } else {
        ParsedPairsSkips(kind, arr, i, pairs);
      }
      i := i + 1;
    }
    assert arr[..i] == arr;
    r := Ok(columns);
  }

  /** An empty piece of the select list is skipped. */
  lemma ParsedPairsSkips(kind: DialectKind, pieces: seq<string>, i: nat, pairs: seq<(string, string)>)
    requires i < |pieces| && pieces[i] == "" && ParsedPairs(kind, pieces[..i]) == Ok(pairs)
    ensures ParsedPairs(kind, pieces[..i + 1]) == Ok(pairs)
  {
    assert pieces[..i + 1][..i] == pieces[..i];
  }

  /** A piece of the select list that reads back adds its pair to the map. */
  lemma ParsedPairsReads(kind: DialectKind, pieces: seq<string>, i: nat, pairs: seq<(string, string)>, pair: (string, string))
    requires i < |pieces| && pieces[i] != "" && ParsedPairs(kind, pieces[..i]) == Ok(pairs)
    requires var ss := Split(pieces[i], " as ");
             ss != [] && pair == (Without(Without(ss[|ss| - 1], OpenQuote(kind)), CloseQuote(kind)), ss[0])
    ensures ParsedPairs(kind, pieces[..i + 1]) == Ok(pairs + [pair])
  {
    assert pieces[..i + 1][..i] == pieces[..i];
  }

  /** A later pair overwrites the key's earlier value. */
  lemma MapOfSnoc(pairs: seq<(string, string)>, key: string, val: string)
    ensures MapOf(pairs)[key := val] == MapOf(pairs + [(key, val)])
  {
    assert (pairs + [(key, val)])[..|pairs|] == pairs;
  }

  /** A piece of the select list made only of ` as ` separators ends the
      loop with a failure. */
  lemma ParsedPairsFails(kind: DialectKind, pieces: seq<string>, i: nat, pairs: seq<(string, string)>)
    requires i < |pieces| && pieces[i] != "" && Split(pieces[i], " as ") == []
    requires ParsedPairs(kind, pieces[..i]) == Ok(pairs)
    ensures ParsedPairs(kind, pieces) == Err(IndexOutOfBounds)
  {
    assert pieces[..i + 1][..i] == pieces[..i];
    ParsedPairsFailureSticks(kind, pieces, i + 1);
    assert pieces[..|pieces|] == pieces;
  }

  /** Once a piece cannot be read, the loop has failed for good. */
  lemma {:induction false} ParsedPairsFailureSticks(kind: DialectKind, pieces: seq<string>, i: nat)
    requires i <= |pieces| && ParsedPairs(kind, pieces[..i]).Err?
    ensures ParsedPairs(kind, pieces) == ParsedPairs(kind, pieces[..i])
    decreases |pieces| - i
  {
    if i < |pieces| {
      assert pieces[..i + 1][..i] == pieces[..i];
      ParsedPairsFailureSticks(kind, pieces, i + 1);
    } else {
      assert pieces[..i] == pieces;
    }
  }

  /** The second loop of the fixed branch: ` order by ` and one comma-terminated
      term per order. */
  method AppendOrders(columns: map<string, string>, orders: seq<Order>) returns (builder: string)
    ensures builder == " order by " + Concat(CommaTerminated(OrderTerms(columns, orders)))
  {
    builder := " order by ";
    var j := 0;
    while j < |orders|
      invariant 0 <= j <= |orders|
      invariant builder == " order by " + Concat(CommaTerminated(OrderTerms(columns, orders[..j])))
    {
      var o := orders[j];
      var p := if o.property in columns then columns[o.property] else "";
      var term := (if p == "" then o.property else p) + " " + DirectionName(o.direction);
      OrderTermsStep(columns, orders, j, builder, term);
      builder := builder + (term + ",");
      j := j + 1;
    }
    assert orders[..j] == orders;
  }

  lemma OrderTermsStep(columns: map<string, string>, orders: seq<Order>, j: nat, builder: string, term: string)
    requires j < |orders|
    requires builder == " order by " + Concat(CommaTerminated(OrderTerms(columns, orders[..j])))
    requires var p := if orders[j].property in columns then columns[orders[j].property] else "";
             term == (if p == "" then orders[j].property else p) + " " + DirectionName(orders[j].direction)
    ensures builder + (term + ",") == " order by " + Concat(CommaTerminated(OrderTerms(columns, orders[..j + 1])))
  {
    assert term == OrderTerm(columns, orders[j]);
    OrderTermsSnoc(columns, orders, j);
    AppendAssociative(" order by ", Concat(CommaTerminated(OrderTerms(columns, orders[..j]))), term + ",");
  }

  lemma OrderTermsSnoc(columns: map<string, string>, orders: seq<Order>, j: nat)
    requires j < |orders|
    ensures Concat(CommaTerminated(OrderTerms(columns, orders[..j + 1]))) ==
            Concat(CommaTerminated(OrderTerms(columns, orders[..j]))) + (OrderTerm(columns, orders[j]) + ",")
  {
    assert OrderTerms(columns, orders[..j + 1]) == OrderTerms(columns, orders[..j]) + [OrderTerm(columns, orders[j])];
    CommaTerminatedSnoc(OrderTerms(columns, orders[..j]), OrderTerm(columns, orders[j]));
  }

  /** The loop of the run-time branch: one `"key":"value",` entry per select entry. */
  /** Appending the entry of one more pair extends the map literal. */
  lemma BindEntriesSnoc(builder: string, pairs: seq<(string, string)>, key: string, val: string)
    requires builder == Concat(BindEntries(pairs))
    ensures builder + ("\"" + key + "\":\"" + EscapeQuotes(val) + "\",") == Concat(BindEntries(pairs + [(key, val)]))
  {
    assert BindEntries(pairs + [(key, val)]) == BindEntries(pairs) + [BindEntry((key, val))];
    ConcatAppend(BindEntries(pairs), BindEntry((key, val)));
  }

  /** A real sort over a select list that reads back as `columns` is the
      fixed list over `columns`. */
  lemma SortedReadsColumns(kind: DialectKind, e: Entity, orders: seq<Order>, columns: map<string, string>)
    requires ParsedColumnsMap(kind, SelectColumns(kind, e)) == Ok(columns)
    ensures Sorts(kind, e, Sorted(orders)) == Ok(FixedOrderBy(columns, orders))
  {
  }

  /** The fixed list of one order is that order's term. */
  lemma FixedOrderByOne(columns: map<string, string>, o: Order)
    ensures FixedOrderBy(columns, [o]) == " order by " + OrderTerm(columns, o)
  {
    assert OrderTerms(columns, [o]) == [OrderTerm(columns, o)];
    assert Concat(CommaTerminated([OrderTerm(columns, o)])) == OrderTerm(columns, o) + ",";
  }

  lemma FixedOrderByNone(columns: map<string, string>)
    ensures FixedOrderBy(columns, []) == " order by"
  {
    assert Concat(CommaTerminated(OrderTerms(columns, []))) == "";
  }

  /** With an empty order list the fixed clause is just " order by" once the
      select list has been read back; a failure to read it is reported. */
  lemma NoOrdersGivesBareOrderBy(kind: DialectKind, e: Entity)
    ensures var m := ParsedColumnsMap(kind, SelectColumns(kind, e));
            Sorts(kind, e, Sorted([])) == if m.Ok? then Ok(" order by") else Err(m.error)
  {
    var m := ParsedColumnsMap(kind, SelectColumns(kind, e));
    if m.Ok? {
      SortedReadsColumns(kind, e, [], m.value);
      FixedOrderByNone(m.value);
    }
  }

  /** A null sort and the unsorted instance both produce the run-time fragment. */
  lemma NullAndUnsortedAgree(kind: DialectKind, e: Entity)
    ensures Sorts(kind, e, NullSort) == Sorts(kind, e, Unsorted) == DynamicSorts(kind, e)
  {
  }

  /** A select entry that reads back as written: it holds no comma, and
      ` as ` occurs in it only where the entry puts it, after the column. */
  predicate ReadableEntry(kind: DialectKind, e: Entity, p: Property)
  {
    ',' !in SelectEntry(kind, e, p) &&
    forall j :: 0 <= j < |SelectEntry(kind, e, p)| && OccursAt(SelectEntry(kind, e, p), " as ", j) ==> j == |ColumnValue(kind, e, p)|
  }

  predicate ReadableSelect(kind: DialectKind, e: Entity)
  {
    forall p :: p in PlainProperties(e.declared) ==> ReadableEntry(kind, e, p)
  }

  /** A readable entry splits into its column and its quoted property name. */
  lemma ParseReadableEntry(kind: DialectKind, e: Entity, p: Property)
    requires ReadableEntry(kind, e, p)
    ensures ParseSelectEntry(kind, SelectEntry(kind, e, p)) == Ok((ColumnKey(kind, p), ColumnValue(kind, e, p)))
  {
    var entry := SelectEntry(kind, e, p);
    var column := ColumnValue(kind, e, p);
    assert entry == column + " as " + Quota(kind, p.name);
    var m := |column|;
    assert entry[m..m + 4] == " as ";
    PiecesOfSingleOccurrence(entry, " as ", m);
    assert entry[..m] == column;
    assert entry[m + 4..] == Quota(kind, p.name);
    assert Quota(kind, p.name) != "";
    assert Split(entry, " as ") == [column, Quota(kind, p.name)];
  }

  lemma {:induction false} ParsedPairsOfEntries(kind: DialectKind, e: Entity, props: seq<Property>)
    requires forall p :: p in props ==> ReadableEntry(kind, e, p)
    ensures ParsedPairs(kind, SelectEntries(kind, e, props)) == Ok(ColumnPairs(kind, e, props))
    decreases |props|
  {
    if props != [] {
      var init := props[..|props| - 1];
      var last := props[|props| - 1];
      assert SelectEntries(kind, e, props)[..|props| - 1] == SelectEntries(kind, e, init);
      assert ColumnPairs(kind, e, props) == ColumnPairs(kind, e, init) + [ColumnPairs(kind, e, props)[|props| - 1]];
      ParsedPairsOfEntries(kind, e, init);
      ParseReadableEntry(kind, e, last);
    }
  }

  /** When every select entry is readable, buildSorts reads back exactly
      the declared properties' key/column pairs. */
  lemma SelectPairsReadBack(kind: DialectKind, e: Entity)
    requires ReadableSelect(kind, e)
    ensures ParsedPairs(kind, Split(SelectColumns(kind, e), ",")) == Ok(ColumnPairs(kind, e, PlainProperties(e.declared)))
  {
    var props := PlainProperties(e.declared);
    var entries := SelectEntries(kind, e, props);
    if entries == [] {
      assert Split(SelectColumns(kind, e), ",") == [""];
      assert ParsedPairs(kind, [""]) == ParsedPairs(kind, [""][..0]);
    } else {
      forall k | 0 <= k < |entries|
        ensures ',' !in entries[k]
      {
        assert props[k] in props;
      }
      PiecesOfJoin(entries, ',');
      assert Split(SelectColumns(kind, e), ",") == entries;
      ParsedPairsOfEntries(kind, e, props);
    }
  }

  /** When every select entry is readable, the map the fixed branch reads
      back is the property-to-column map. */
  lemma SelectListReadsBack(kind: DialectKind, e: Entity)
    requires ReadableSelect(kind, e)
    ensures ParsedColumnsMap(kind, SelectColumns(kind, e)) == Ok(ColumnsMap(kind, e, PlainProperties(e.declared)))
  {
    SelectPairsReadBack(kind, e);
  }

  /** When every select entry is readable, the dynamic branch binds the
      declared properties' own map. */
  lemma DynamicSortsReadBack(kind: DialectKind, e: Entity)
    requires ReadableSelect(kind, e)
    ensures DynamicSorts(kind, e) == Ok(DeclaredDynamicSorts(kind, e))
  {
    SelectPairsReadBack(kind, e);
  }

  /** Both branches read the same select list back, so a real sort fails
      exactly when the dynamic fragment does. */
  lemma SortBranchesFailTogether(kind: DialectKind, e: Entity, orders: seq<Order>)
    ensures Sorts(kind, e, Sorted(orders)).Err? <==> Sorts(kind, e, NullSort).Err?
  {
  }

  /** An order on the key of a readable plain property that no other plain
      property shares is rendered with that property's qualified column. */
  lemma OrderUsesMappedColumn(kind: DialectKind, e: Entity, k: nat, d: Direction)
    requires ReadableSelect(kind, e)
    requires k < |PlainProperties(e.declared)|
    requires forall j :: 0 <= j < |PlainProperties(e.declared)| && j != k ==>
               ColumnKey(kind, PlainProperties(e.declared)[j]) != ColumnKey(kind, PlainProperties(e.declared)[k])
    ensures Sorts(kind, e, Sorted([Order(ColumnKey(kind, PlainProperties(e.declared)[k]), d)]))
         == Ok(" order by " + ColumnValue(kind, e, PlainProperties(e.declared)[k]) + " " + DirectionName(d))
  {
    var props := PlainProperties(e.declared);
    var o := Order(ColumnKey(kind, props[k]), d);
    var column := ColumnValue(kind, e, props[k]);
    SelectListReadsBack(kind, e);
    SortedReadsColumns(kind, e, [o], ColumnsMap(kind, e, props));
    FixedOrderByOne(ColumnsMap(kind, e, props), o);
    ColumnsMapLookup(kind, e, props, k);
    assert OrderTerm(ColumnsMap(kind, e, props), o) == column + " " + DirectionName(d);
    OrderByTextRegroups(column, DirectionName(d));
  }

  /** A property whose key no other property shares is mapped to its
      qualified column, which is never empty. */
  lemma ColumnsMapLookup(kind: DialectKind, e: Entity, props: seq<Property>, k: nat)
    requires k < |props|
    requires forall j :: 0 <= j < |props| && j != k ==> ColumnKey(kind, props[j]) != ColumnKey(kind, props[k])
    ensures ColumnKey(kind, props[k]) in ColumnsMap(kind, e, props)
    ensures ColumnsMap(kind, e, props)[ColumnKey(kind, props[k])] == ColumnValue(kind, e, props[k]) != ""
  {
    var pairs := ColumnPairs(kind, e, props);
    MapOfLookup(pairs, k);
    assert pairs[k] == (ColumnKey(kind, props[k]), ColumnValue(kind, e, props[k]));
  }

  lemma OrderByTextRegroups(column: string, direction: string)
    ensures " order by " + (column + " " + direction) == " order by " + column + " " + direction
  {
  }
}
