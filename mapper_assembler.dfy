/** MybatisSimpleRepositoryMapperGenerator: assembles the MyBatis mapper XML
    of an entity's CRUD repository — the table-name and example fragments, the
    result map and eleven statements, each emitted only when the namespace does
    not already define it. */
module MapperAssembler {
  import opened Common
  import opened Mapping
  import opened Dialects
  import opened MapperGenerator
  import opened ExampleGenerator

  const MapperBegin := "<?xml version=\"1.0\" encoding=\"UTF-8\"?>\n" +
    "<!DOCTYPE mapper PUBLIC \"-//mybatis.org//DTD Mapper 3.0//EN\" \"http://mybatis.org/dtd/mybatis-3-mapper.dtd\">"
  const MapperEnd := "</mapper>"

  /** What the generator works from: the dialect, the domain class name (also
      the namespace), the entity, and the text of its result map (whose
      construction is not part of this model). */
  datatype Target = Target(kind: DialectKind, className: string, e: Entity, resultMap: string)

  /** The MyBatis configuration the mapper is added to: the qualified names of
      its SQL fragments, result maps and statements. */
  datatype Configuration = Configuration(fragments: set<string>, resultMaps: set<string>, statements: set<string>)

  /** The sections of the mapper, in the order render emits them. */
  datatype Section = TableName | Example | ResultMap | InsertSection | UpdateSection | UpdateIgnoreNullSection
                   | FindById | FindAll | Count | DeleteById | DeleteAll | FindByPager | CountByExample | DeleteByExample

  const SectionOrder: seq<Section> := [TableName, Example, ResultMap, InsertSection, UpdateSection,
    UpdateIgnoreNullSection, FindById, FindAll, Count, DeleteById, DeleteAll, FindByPager, CountByExample, DeleteByExample]

  /** The name each section is registered under, without the namespace. */
  function SectionId(s: Section): string
  {
    match s
    case TableName => "TABLE_NAME"
    case Example => "_EXAMPLE"
    case ResultMap => "ResultMap"
    case InsertSection => "_insert"
    case UpdateSection => "_update"
    case UpdateIgnoreNullSection => "_updateIgnoreNull"
    case FindById => "_findById"
    case FindAll => "_findAll"
    case Count => "_count"
    case DeleteById => "_deleteById"
    case DeleteAll => "_deleteAll"
    case FindByPager => "_findByPager"
    case CountByExample => "_countByExample"
    case DeleteByExample => "_deleteByExample"
  }

  /** isFragmentExist / isResultMapExist / isStatementExist: without a
      configuration nothing exists; otherwise the namespace-qualified name is
      looked up in the matching registry. */
  predicate Exists(cfg: Option<Configuration>, namespace: string, s: Section)
  {
    cfg.Some? &&
    var qualified := namespace + "." + SectionId(s);
    match s
    case TableName => qualified in cfg.value.fragments
    case Example => qualified in cfg.value.fragments
    case ResultMap => qualified in cfg.value.resultMaps
    case _ => qualified in cfg.value.statements
  }

  // ---------------------------------------------------------------------------
  // Shared pieces
  // ---------------------------------------------------------------------------

  function Column(kind: DialectKind, p: Property): string
  {
    WrapColumnName(kind, ColumnName(p))
  }

  function TypeHandlerSuffix(p: Property): string
  {
    if p.typeHandler.Some? then ",typeHandler=" + p.typeHandler.value else ""
  }

  /** The bound value of a property with its JDBC type (and type handler). */
  function TypedPlaceholder(p: Property): string
  {
    "#{" + p.name + ",jdbcType=" + JdbcTypeName(JdbcTypeOf(p)) + TypeHandlerSuffix(p) + "}"
  }

  const ExampleFilter := "<if test=\"_example != null\">" + "<trim prefix=\" where \" prefixOverrides=\"and |or \">" +
    "<include refid=\"_EXAMPLE\" />" + "</trim>" + "</if>"

  const WhereTrim := "<trim prefix=\" where \" prefixOverrides=\"and |or \">"

  /** `delete`, followed by the quoted entity alias when the dialect supports
      a delete alias. */
  function DeleteHead(kind: DialectKind, e: Entity): string
  {
    "delete" + (if SupportsDeleteAlias(kind) then " " + Quota(kind, e.entityName) else "")
  }

  /** The alias is named after "delete" exactly when the dialect supports it. */
  lemma DeleteAliasRule(kind: DialectKind, e: Entity)
    ensures SupportsDeleteAlias(kind) ==> DeleteHead(kind, e) == "delete " + Quota(kind, e.entityName)
    ensures !SupportsDeleteAlias(kind) <==> DeleteHead(kind, e) == "delete"
  {
  }

  /** The entity's embedded associations paired with each of their
      sub-properties, in visiting order. */
  function EmbeddedTargets(assocs: seq<Property>): seq<(Property, Property)>
    decreases |assocs|
  {
    if assocs == [] then []
    else
      var a := assocs[|assocs| - 1];
      var subs := EmbeddedProperties(a);
      EmbeddedTargets(assocs[..|assocs| - 1]) + seq(|subs|, k requires 0 <= k < |subs| => (a, subs[k]))
  }

  /** Appends the parts in order. */
  method AppendAll(builder: string, parts: seq<string>) returns (b: string)
    ensures b == builder + Concat(parts)
  {
    b := builder;
    var i := 0;
    while i < |parts|
      invariant 0 <= i <= |parts|
      invariant b == builder + Concat(parts[..i])
    {
      assert parts[..i + 1] == parts[..i] + [parts[i]];
      ConcatAppend(parts[..i], parts[i]);
      b := b + parts[i];
      i := i + 1;
    }
    assert parts[..i] == parts;
  }

  // ---------------------------------------------------------------------------
  // _update and _updateIgnoreNull
  // ---------------------------------------------------------------------------

  /** One property's SET entry: nothing for the id, an increment for the
      version, and otherwise the column bound to the property, guarded by a
      null test when nulls are ignored. */
  function SetEntry(kind: DialectKind, p: Property, ignoreNull: bool): string
  {
    if IsIdProperty(p) then ""
    else if IsVersionProperty(p) then Column(kind, p) + "=" + Column(kind, p) + "+1,"
    else
      var entry := Column(kind, p) + "=" + TypedPlaceholder(p) + ",";
      if ignoreNull then "<if test=\"" + p.name + " != null\">" + entry + "</if>" else entry
  }

  /** One embedded sub-property's SET entry, bound through the association. */
  function EmbeddedSetEntry(kind: DialectKind, target: (Property, Property), ignoreNull: bool): string
  {
    var (a, sub) := target;
    var entry := Column(kind, sub) + "=" + Placeholder(a.name + "." + sub.name) + ",";
    if ignoreNull then "<if test=\"" + a.name + " != null and " + a.name + "." + sub.name + " != null\">" + entry + "</if>"
    else entry
  }

  function SetEntries(kind: DialectKind, props: seq<Property>, ignoreNull: bool): (r: seq<string>)
    ensures |r| == |props|
  {
    seq(|props|, k requires 0 <= k < |props| => SetEntry(kind, props[k], ignoreNull))
  }

  function EmbeddedSetEntries(kind: DialectKind, targets: seq<(Property, Property)>, ignoreNull: bool): (r: seq<string>)
    ensures |r| == |targets|
  {
    seq(|targets|, k requires 0 <= k < |targets| => EmbeddedSetEntry(kind, targets[k], ignoreNull))
  }

  /** The SET entries: an id contributes nothing, the version column is
      incremented, and ignoring nulls only wraps the plain entry in a null
      test. */
  lemma SetEntryShapes(kind: DialectKind, p: Property)
    ensures IsIdProperty(p) ==> SetEntry(kind, p, true) == "" && SetEntry(kind, p, false) == ""
    ensures !IsIdProperty(p) && IsVersionProperty(p) ==>
              SetEntry(kind, p, true) == SetEntry(kind, p, false) == Column(kind, p) + "=" + Column(kind, p) + "+1,"
    ensures !IsIdProperty(p) && !IsVersionProperty(p) ==>
              SetEntry(kind, p, true) == "<if test=\"" + p.name + " != null\">" + SetEntry(kind, p, false) + "</if>" &&
              SetEntry(kind, p, false) == Column(kind, p) + "=" + TypedPlaceholder(p) + ","
  {
  }

  /** The update's WHERE clauses for the id: one per key column, bound through
      the id property for a composite key. */
  function UpdateIdClauses(kind: DialectKind, id: Property): seq<string>
  {
    if IsCompositeId(id) then
      var subs := IdSubProperties(id);
      seq(|subs|, k requires 0 <= k < |subs| => " and " + Column(kind, subs[k]) + "=" + Placeholder(id.name + "." + subs[k].name))
    else [" and " + Column(kind, id) + "=" + Placeholder(id.name)]
  }

  function VersionClause(kind: DialectKind, e: Entity): string
  {
    match VersionProperty(e)
    case None => ""
    case Some(v) => "and " + Column(kind, v) + "=" + Placeholder(v.name)
  }

  function UpdateHead(t: Target, statementName: string): string
  {
    "<update id=\"" + statementName + "\" parameterType=\"" + t.className + "\" lang=\"XML\">" +
    "update " + WrapTableName(t.kind, t.e.tableName) + "<set>"
  }

  /** buildUpdateSQL: nothing without an id; otherwise the SET list (plain
      properties, then embedded sub-properties, the builder's trailing comma
      removed) and the WHERE on the id columns and the version. */
  function UpdateStatement(t: Target, statementName: string, ignoreNull: bool): string
  {
    match IdProperty(t.e)
    case None => ""
    case Some(id) =>
      var props := PlainProperties(t.e.declared);
      var targets := EmbeddedTargets(Associations(t.e.declared));
      DropTrailingComma(UpdateHead(t, statementName) + Concat(SetEntries(t.kind, props, ignoreNull)) +
                        Concat(EmbeddedSetEntries(t.kind, targets, ignoreNull))) +
      "</set>" + "<trim prefix=\"where\" prefixOverrides=\"and |or \">" +
      Concat(UpdateIdClauses(t.kind, id)) + VersionClause(t.kind, t.e) + "</trim>" + "</update>"
  }

  method BuildUpdate(t: Target, statementName: string, ignoreNull: bool) returns (sql: string)
    ensures sql == UpdateStatement(t, statementName, ignoreNull)
  {
    var id := IdProperty(t.e);
    if id.None? {
      return "";
    }
    var sets := SetEntries(t.kind, PlainProperties(t.e.declared), ignoreNull);
    var embedded := EmbeddedSetEntries(t.kind, EmbeddedTargets(Associations(t.e.declared)), ignoreNull);
    var b := AppendAll(UpdateHead(t, statementName), sets);
    b := AppendAll(b, embedded);
    b := TrimTrailingComma(b);
    b := AppendAll(b + "</set>" + "<trim prefix=\"where\" prefixOverrides=\"and |or \">", UpdateIdClauses(t.kind, id.value));
    sql := b + VersionClause(t.kind, t.e) + "</trim>" + "</update>";
  }

  /** `if (builder.charAt(builder.length() - 1) == ',') builder.deleteCharAt(...)`. */
  method TrimTrailingComma(b: string) returns (r: string)
    ensures r == DropTrailingComma(b)
  {
    r := b;
    if |r| > 0 && r[|r| - 1] == ',' {
      r := r[..|r| - 1];
    }
  }


  // ---------------------------------------------------------------------------
  // _insert
  // ---------------------------------------------------------------------------

  /** What insert binds: every plain property (None), then every embedded
      sub-property with its association (Some). */
  function InsertTargets(e: Entity): seq<(Option<Property>, Property)>
  {
    var props := PlainProperties(e.declared);
    var targets := EmbeddedTargets(Associations(e.declared));
    seq(|props|, k requires 0 <= k < |props| => (None, props[k])) +
    seq(|targets|, k requires 0 <= k < |targets| => (Some(targets[k].0), targets[k].1))
  }

  function ColumnEntry(kind: DialectKind, target: (Option<Property>, Property)): string
  {
    Column(kind, target.1) + ","
  }

  /** The bound value of a target: a plain property with its type handler, an
      embedded one through its association and without. */
  function ValueEntry(target: (Option<Property>, Property)): string
  {
    match target.0
    case None => TypedPlaceholder(target.1) + ","
    case Some(a) => "#{" + a.name + "." + target.1.name + ",jdbcType=" + JdbcTypeName(JdbcTypeOf(target.1)) + "},"
  }

  function ColumnEntries(kind: DialectKind, targets: seq<(Option<Property>, Property)>): (r: seq<string>)
    ensures |r| == |targets|
  {
    seq(|targets|, k requires 0 <= k < |targets| => ColumnEntry(kind, targets[k]))
  }

  function ValueEntries(targets: seq<(Option<Property>, Property)>): (r: seq<string>)
    ensures |r| == |targets|
  {
    seq(|targets|, k requires 0 <= k < |targets| => ValueEntry(targets[k]))
  }

  function InsertHead(t: Target): string
  {
    "<insert id=\"_insert\" parameterType=\"" + t.className + "\" lang=\"XML\">" + "<![CDATA[" +
    "insert into " + WrapTableName(t.kind, t.e.tableName) + "("
  }

  /** buildInsertSQL: the column list and the value list, each with the
      builder's trailing comma removed. */
  function InsertStatement(t: Target): string
  {
    var targets := InsertTargets(t.e);
    DropTrailingComma(DropTrailingComma(InsertHead(t) + Concat(ColumnEntries(t.kind, targets))) + ") values(" +
                      Concat(ValueEntries(targets))) +
    ")]]>" + "</insert>"
  }

  /** The insert column list and value list walk the same targets: both have
      one entry per plain property and embedded sub-property, and the k-th
      value binds the k-th column's property. */
  lemma InsertListsAgree(t: Target)
    ensures var targets := InsertTargets(t.e);
            |targets| == |PlainProperties(t.e.declared)| + |EmbeddedTargets(Associations(t.e.declared))| &&
            |ColumnEntries(t.kind, targets)| == |ValueEntries(targets)| == |targets|
    ensures var targets := InsertTargets(t.e);
            forall k :: 0 <= k < |PlainProperties(t.e.declared)| ==>
              targets[k] == (None, PlainProperties(t.e.declared)[k]) &&
              ColumnEntries(t.kind, targets)[k] == Column(t.kind, PlainProperties(t.e.declared)[k]) + "," &&
              ValueEntries(targets)[k] == TypedPlaceholder(PlainProperties(t.e.declared)[k]) + ","
    ensures var targets := InsertTargets(t.e);
            var n := |PlainProperties(t.e.declared)|;
            var embedded := EmbeddedTargets(Associations(t.e.declared));
            forall j :: 0 <= j < |embedded| ==>
              targets[n + j] == (Some(embedded[j].0), embedded[j].1) &&
              ColumnEntries(t.kind, targets)[n + j] == Column(t.kind, embedded[j].1) + "," &&
              ValueEntries(targets)[n + j] ==
                "#{" + embedded[j].0.name + "." + embedded[j].1.name + ",jdbcType=" + JdbcTypeName(JdbcTypeOf(embedded[j].1)) + "},"
  {
  }

  method BuildInsert(t: Target) returns (sql: string)
    ensures sql == InsertStatement(t)
  {
    var targets := InsertTargets(t.e);
    var b := AppendAll(InsertHead(t), ColumnEntries(t.kind, targets));
    b := TrimTrailingComma(b);
    b := AppendAll(b + ") values(", ValueEntries(targets));
    b := TrimTrailingComma(b);
    sql := b + ")]]>" + "</insert>";
  }


  // ---------------------------------------------------------------------------
  // The by-id statements
  // ---------------------------------------------------------------------------

  function NoIdMessage(t: Target): string
  {
    "Could not find @Id/@EmbeddedId for domain: class " + t.className + " ."
  }

  /** buildByIdCaluse: one clause per id column, qualified by the entity alias
      and bound to the bare (sub-)property name; no id is a mapping error. */
  function ByIdClauses(t: Target): (r: Result<seq<string>, Failure>)
    ensures r.Err? <==> IdProperty(t.e).None?
  {
    match IdProperty(t.e)
    case None => Err(Mapping(NoIdMessage(t)))
    case Some(id) =>
      var alias := Quota(t.kind, t.e.entityName);
      if IsCompositeId(id) then
        var subs := IdSubProperties(id);
        Ok(seq(|subs|, k requires 0 <= k < |subs| => " and " + alias + "." + Column(t.kind, subs[k]) + "=" + Placeholder(subs[k].name)))
      else Ok([" and " + alias + "." + Column(t.kind, id) + "=" + Placeholder(id.name)])
  }

  function FindByIdStatement(t: Target): (r: Result<string, Failure>)
    ensures r.Err? <==> IdProperty(t.e).None?
    ensures r.Err? ==> r == Err(Mapping(NoIdMessage(t)))
  {
    match ByIdClauses(t)
    case Err(f) => Err(f)
    case Ok(clauses) =>
      Ok("<select id=\"_findById\" resultMap=\"ResultMap\" lang=\"XML\">" +
         "select " + SelectColumns(t.kind, t.e) + " from " + From(t.kind, t.e) +
         WhereTrim + Concat(clauses) + "</trim>" + "</select>")
  }

  /** The delete-by-id clauses: bound to the bare (sub-)property name. */
  function DeleteByIdClauses(kind: DialectKind, id: Property): seq<string>
  {
    if IsCompositeId(id) then
      var subs := IdSubProperties(id);
      seq(|subs|, k requires 0 <= k < |subs| => "and " + Column(kind, subs[k]) + "=" + Placeholder(subs[k].name))
    else [" and " + Column(kind, id) + "=" + Placeholder(id.name)]
  }

  /** buildDeleteById: nothing without an id. */
  function DeleteByIdStatement(t: Target): string
  {
    match IdProperty(t.e)
    case None => ""
    case Some(id) =>
      "<delete id=\"_deleteById\" parameterType=\"" + t.className + "\" lang=\"XML\">" +
      DeleteHead(t.kind, t.e) + " from " + From(t.kind, t.e) +
      WhereTrim + Concat(DeleteByIdClauses(t.kind, id)) + "</trim>" + "</delete>"
  }

  /** For a composite key, the update binds every key column through the id
      property, while findById and deleteById bind the bare sub-property
      name; for a simple key all three bind the id property itself. */
  lemma IdBindingsDiffer(t: Target, k: nat)
    requires IdProperty(t.e).Some?
    ensures var id := IdProperty(t.e).value;
            IsCompositeId(id) && k < |IdSubProperties(id)| ==>
              var sub := IdSubProperties(id)[k];
              UpdateIdClauses(t.kind, id)[k] == " and " + Column(t.kind, sub) + "=" + Placeholder(id.name + "." + sub.name) &&
              ByIdClauses(t).value[k] == " and " + Quota(t.kind, t.e.entityName) + "." + Column(t.kind, sub) + "=" + Placeholder(sub.name) &&
              DeleteByIdClauses(t.kind, id)[k] == "and " + Column(t.kind, sub) + "=" + Placeholder(sub.name)
    ensures var id := IdProperty(t.e).value;
            !IsCompositeId(id) ==>
              UpdateIdClauses(t.kind, id) == [" and " + Column(t.kind, id) + "=" + Placeholder(id.name)] &&
              ByIdClauses(t).value == [" and " + Quota(t.kind, t.e.entityName) + "." + Column(t.kind, id) + "=" + Placeholder(id.name)] &&
              DeleteByIdClauses(t.kind, id) == [" and " + Column(t.kind, id) + "=" + Placeholder(id.name)]
  {
  }

  // ---------------------------------------------------------------------------
  // The listing, counting and deleting statements
  // ---------------------------------------------------------------------------

  const IdsForeach := "<foreach item=\"item\" index=\"index\" collection=\"_ids\" open=\"(\" separator=\",\" close=\")\">#{item}</foreach>"

  /** The `_ids` filter of findAll: none without an id; an IN list over the id
      column for a simple key, and an empty test for a composite one. */
  function IdsFilter(t: Target): (r: string)
    ensures IdProperty(t.e).None? <==> r == ""
    ensures IdProperty(t.e).Some? && IsCompositeId(IdProperty(t.e).value) ==> r == "<if test=\"_ids != null\">" + "</if>"
    ensures IdProperty(t.e).Some? && !IsCompositeId(IdProperty(t.e).value) ==>
              r == "<if test=\"_ids != null\">" + " where " + Quota(t.kind, t.e.entityName) + "." +
                   Column(t.kind, IdProperty(t.e).value) + " in " + IdsForeach + "</if>"
  {
    match IdProperty(t.e)
    case None => ""
    case Some(id) =>
      "<if test=\"_ids != null\">" +
      (if !IsCompositeId(id) then " where " + Quota(t.kind, t.e.entityName) + "." + Column(t.kind, id) + " in " + IdsForeach
       else "") +
      "</if>"
  }

  function FindAllStatement(t: Target): string
  {
    "<select id=\"_findAll\" resultMap=\"ResultMap\" lang=\"XML\">" +
    "select " + SelectColumns(t.kind, t.e) + " from " + From(t.kind, t.e) +
    ExampleFilter + IdsFilter(t) + DeclaredDynamicSorts(t.kind, t.e) + "</select>"
  }

  function CountStatement(t: Target): string
  {
    "<select id=\"_count\" resultType=\"long\" lang=\"XML\">" + "select count(*) from " + From(t.kind, t.e) + "</select>"
  }

  /** buildDeleteAll: the table is truncated. */
  function DeleteAllStatement(t: Target): string
  {
    "<delete id=\"_deleteAll\">truncate table " + WrapTableName(t.kind, t.e.tableName) + " </delete>"
  }

  /** buildFindByPager: the dialect's paged select over the example filter and
      the dynamic sort; a dialect without a limit handler fails. */
  function FindByPagerStatement(t: Target): (r: Result<string, Failure>)
    ensures r.Err? <==> t.kind == Base
  {
    match PagedSelect(t.kind, true, SelectColumns(t.kind, t.e), " from " + From(t.kind, t.e), ExampleFilter, DeclaredDynamicSorts(t.kind, t.e))
    case Err(f) => Err(f)
    case Ok(sql) => Ok("<select id=\"_findByPager\" resultMap=\"ResultMap\" lang=\"XML\">" + sql + "</select>")
  }

  function CountByExampleStatement(t: Target): string
  {
    "<select id=\"_countByExample\" resultType=\"long\" lang=\"XML\">" + "select count(*) from " + From(t.kind, t.e) +
    ExampleFilter + "</select>"
  }

  function DeleteByExampleStatement(t: Target): string
  {
    "<delete id=\"_deleteByExample\" lang=\"XML\">" + DeleteHead(t.kind, t.e) + " from " + From(t.kind, t.e) +
    ExampleFilter + "</delete>"
  }

  /** buildExample: the example fragments of every plain property but the id. */
  function ExampleCondition(kind: DialectKind, e: Entity): string
  {
    var props := PlainProperties(e.declared);
    Concat(seq(|props|, k requires 0 <= k < |props| => if IsIdProperty(props[k]) then "" else Generate(kind, e, props[k])))
  }

  // ---------------------------------------------------------------------------
  // render
  // ---------------------------------------------------------------------------

  /** The text of one section: findById and findByPager can fail, every
      other section always has a text. */
  function SectionText(t: Target, s: Section): Result<string, Failure>
  {
    match s
    case FindById => FindByIdStatement(t)
    case FindByPager => FindByPagerStatement(t)
    case _ => Ok(InfallibleText(t, s))
  }

  function InfallibleText(t: Target, s: Section): string
    requires s != FindById && s != FindByPager
  {
    match s
    case TableName => "<sql id=\"TABLE_NAME\">" + WrapTableName(t.kind, t.e.tableName) + "</sql>"
    case Example => "<sql id=\"_EXAMPLE\">" + ExampleCondition(t.kind, t.e) + "</sql>"
    case ResultMap => t.resultMap
    case InsertSection => InsertStatement(t)
    case UpdateSection => UpdateStatement(t, "_update", false)
    case UpdateIgnoreNullSection => UpdateStatement(t, "_updateIgnoreNull", true)
    case FindAll => FindAllStatement(t)
    case Count => CountStatement(t)
    case DeleteById => DeleteByIdStatement(t)
    case DeleteAll => DeleteAllStatement(t)
    case CountByExample => CountByExampleStatement(t)
    case DeleteByExample => DeleteByExampleStatement(t)
  }

  /** Only two sections can fail: findById without an id, and findByPager on
      a dialect without a limit handler. */
  lemma SectionFailures(t: Target, s: Section)
    ensures SectionText(t, s).Err? <==>
              (s == FindById && IdProperty(t.e).None?) || (s == FindByPager && t.kind == Base)
  {
  }

  /** Without an id, findById is a mapping error while the update and
      delete-by-id statements are silently left empty. */
  lemma NoIdStatements(t: Target)
    requires IdProperty(t.e).None?
    ensures FindByIdStatement(t) == Err(Mapping(NoIdMessage(t)))
    ensures UpdateStatement(t, "_update", false) == "" && UpdateStatement(t, "_updateIgnoreNull", true) == ""
    ensures DeleteByIdStatement(t) == ""
  {
  }

  /** The sections in order, each appended unless it is skipped; the first
      failing section ends the rendering. */
  function Emit(text: Section -> Result<string, Failure>, skip: Section -> bool, ss: seq<Section>): Result<string, Failure>
    decreases |ss|
  {
    if ss == [] then Ok("")
    else
      var s := ss[|ss| - 1];
      match Emit(text, skip, ss[..|ss| - 1])
      case Err(f) => Err(f)
      case Ok(body) =>
        if skip(s) then Ok(body)
        else match text(s)
          case Err(f) => Err(f)
          case Ok(piece) => Ok(body + piece)
  }

  /** render: the XML header, the mapper element of the class's namespace,
      every section the namespace does not already define, and the closing
      tag. */
  function Render(t: Target, cfg: Option<Configuration>): Result<string, Failure>
  {
    match Emit(s => SectionText(t, s), s => Exists(cfg, t.className, s), SectionOrder)
    case Err(f) => Err(f)
    case Ok(body) => Ok(MapperBegin + "<mapper namespace=\"" + t.className + "\">" + body + MapperEnd)
  }

  /** The fold succeeds exactly when every section it does not skip has a
      text. */
  lemma {:induction false} EmitSucceeds(text: Section -> Result<string, Failure>, skip: Section -> bool, ss: seq<Section>)
    ensures Emit(text, skip, ss).Ok? <==> forall k :: 0 <= k < |ss| && !skip(ss[k]) ==> text(ss[k]).Ok?
    decreases |ss|
  {
    if ss != [] {
      var n := |ss| - 1;
      var init := ss[..n];
      EmitSucceeds(text, skip, init);
      assert forall k :: 0 <= k < n ==> init[k] == ss[k];
    }
  }

  /** Skipped sections are never emitted: when every section is skipped the
      body is empty. */
  lemma {:induction false} SkippedSectionsEmitNothing(text: Section -> Result<string, Failure>, skip: Section -> bool, ss: seq<Section>)
    requires forall k :: 0 <= k < |ss| ==> skip(ss[k])
    ensures Emit(text, skip, ss) == Ok("")
    decreases |ss|
  {
    if ss != [] {
      var n := |ss| - 1;
      assert forall k :: 0 <= k < n ==> ss[..n][k] == ss[k];
      SkippedSectionsEmitNothing(text, skip, ss[..n]);
    }
  }

  /** An error in a prefix of the sections is the error of the whole. */
  lemma {:induction false} EmitPrefixError(text: Section -> Result<string, Failure>, skip: Section -> bool, ss: seq<Section>, i: nat)
    requires i <= |ss|
    requires Emit(text, skip, ss[..i]).Err?
    ensures Emit(text, skip, ss) == Emit(text, skip, ss[..i])
    decreases |ss| - i
  {
    if i < |ss| {
      assert ss[..i + 1][..i] == ss[..i];
      EmitPrefixError(text, skip, ss, i + 1);
    } else {
      assert ss[..i] == ss;
    }
  }

  /** Without a configuration every section is emitted, so rendering fails
      exactly when the entity has no id or the dialect has no limit handler. */
  lemma RenderWithoutConfiguration(t: Target)
    ensures forall s :: !Exists(None, t.className, s)
    ensures Render(t, None).Ok? <==> IdProperty(t.e).Some? && t.kind != Base
  {
    if IdProperty(t.e).None? {
      MissingIdReportedFirst(t);
    } else if t.kind == Base {
      RenderFailsOnBaseDialect(t);
    } else {
      RenderSucceedsWithIdAndLimit(t);
    }
  }

  lemma RenderFailsOnBaseDialect(t: Target)
    requires t.kind == Base
    ensures Render(t, None).Err?
  {
    var text := s => SectionText(t, s);
    var skip := s => Exists(None, t.className, s);
    SectionFailures(t, FindByPager);
    assert text(SectionOrder[11]).Err?;
    EmitSucceeds(text, skip, SectionOrder);
  }

  lemma RenderSucceedsWithIdAndLimit(t: Target)
    requires IdProperty(t.e).Some? && t.kind != Base
    ensures Render(t, None).Ok?
  {
    forall s
      ensures SectionText(t, s).Ok?
    {
      SectionFailures(t, s);
    }
    EmitSucceeds(s => SectionText(t, s), s => Exists(None, t.className, s), SectionOrder);
  }

  /** Without a configuration, a missing id is the error reported, even on a
      dialect without a limit handler, because findById comes before
      findByPager. */
  lemma MissingIdReportedFirst(t: Target)
    requires IdProperty(t.e).None?
    ensures Render(t, None) == Err(Mapping(NoIdMessage(t)))
  {
    MissingIdStopsEmit(t);
  }

  lemma MissingIdStopsEmit(t: Target)
    requires IdProperty(t.e).None?
    ensures Emit(s => SectionText(t, s), s => Exists(None, t.className, s), SectionOrder) == Err(Mapping(NoIdMessage(t)))
  {
    EarlySectionsSucceed(t);
    assert SectionOrder[6] == FindById;
    FirstFailureWins(s => SectionText(t, s), s => Exists(None, t.className, s), SectionOrder, 6);
  }


  /** The sections before findById always have a text. */
  lemma EarlySectionsSucceed(t: Target)
    ensures forall k :: 0 <= k < 6 ==> SectionText(t, SectionOrder[k]).Ok?
  {
    forall k | 0 <= k < 6
      ensures SectionText(t, SectionOrder[k]).Ok?
    {
      SectionFailures(t, SectionOrder[k]);
    }
  }


  /** The first section that is emitted and fails decides the result. */
  lemma FirstFailureWins(text: Section -> Result<string, Failure>, skip: Section -> bool, ss: seq<Section>, i: nat)
    requires i < |ss|
    requires forall k :: 0 <= k < i ==> skip(ss[k]) || text(ss[k]).Ok?
    requires !skip(ss[i]) && text(ss[i]).Err?
    ensures Emit(text, skip, ss) == text(ss[i])
  {
    var prefix := ss[..i + 1];
    assert prefix[..i] == ss[..i];
    EmitSucceeds(text, skip, ss[..i]);
    assert Emit(text, skip, prefix) == text(ss[i]);
    EmitPrefixError(text, skip, ss, i + 1);
  }


  /** A configured namespace that already defines everything gets the bare
      mapper element, whatever the entity and dialect. */
  lemma RenderWhenAllExist(t: Target, cfg: Option<Configuration>)
    requires forall s :: Exists(cfg, t.className, s)
    ensures Render(t, cfg) == Ok(MapperBegin + "<mapper namespace=\"" + t.className + "\">" + MapperEnd)
  {
    SkippedSectionsEmitNothing(s => SectionText(t, s), s => Exists(cfg, t.className, s), SectionOrder);
    var head := MapperBegin + "<mapper namespace=\"" + t.className + "\">";
    assert head + "" == head;
  }
}
