/** MybatisPersistentPropertyImpl: what a mapped entity property reports about
    itself — column name, JDBC type, type handler, id/composite-id, association
    and transience — derived from its annotations. An entity is described by the
    properties its class declares; the Spring Data bookkeeping the generators
    rely on (which properties are visited as plain properties, which as
    embedded associations, which one is the id) is defined here as well. */
module Mapping {
  import opened Common

  /** The Java types of the type-to-JDBC table, plus every other class by name. */
  datatype JavaType =
    | StringType | BigDecimalType
    | PrimitiveBoolean | PrimitiveByte | PrimitiveShort | PrimitiveInt
    | PrimitiveLong | PrimitiveFloat | PrimitiveDouble
    | BoxedBoolean | BoxedByte | BoxedShort | BoxedInteger | BoxedLong | BoxedFloat | BoxedDouble
    | ByteArray | UtilDate | SqlDate | SqlTime | SqlTimestamp
    | OtherClass(className: string)

  /** MyBatis' `JdbcType` constants. */
  datatype JdbcType =
    | ARRAY | BIT | TINYINT | SMALLINT | INTEGER | BIGINT | FLOAT | REAL | DOUBLE
    | NUMERIC | DECIMAL | CHAR | VARCHAR | LONGVARCHAR | DATE | TIME | TIMESTAMP
    | BINARY | VARBINARY | LONGVARBINARY | NULL | OTHER | BLOB | CLOB | BOOLEAN
    | CURSOR | UNDEFINED | NVARCHAR | NCHAR | NCLOB | STRUCT | JAVA_OBJECT
    | DISTINCT | REF | DATALINK | ROWID | LONGNVARCHAR | SQLXML | DATETIMEOFFSET

  /** `JdbcType.name()`, as it is printed into `jdbcType=` attributes. */
  function JdbcTypeName(t: JdbcType): string
  {
    match t
    case ARRAY => "ARRAY" case BIT => "BIT" case TINYINT => "TINYINT"
    case SMALLINT => "SMALLINT" case INTEGER => "INTEGER" case BIGINT => "BIGINT"
    case FLOAT => "FLOAT" case REAL => "REAL" case DOUBLE => "DOUBLE"
    case NUMERIC => "NUMERIC" case DECIMAL => "DECIMAL" case CHAR => "CHAR"
    case VARCHAR => "VARCHAR" case LONGVARCHAR => "LONGVARCHAR" case DATE => "DATE"
    case TIME => "TIME" case TIMESTAMP => "TIMESTAMP" case BINARY => "BINARY"
    case VARBINARY => "VARBINARY" case LONGVARBINARY => "LONGVARBINARY"
    case NULL => "NULL" case OTHER => "OTHER" case BLOB => "BLOB" case CLOB => "CLOB"
    case BOOLEAN => "BOOLEAN" case CURSOR => "CURSOR" case UNDEFINED => "UNDEFINED"
    case NVARCHAR => "NVARCHAR" case NCHAR => "NCHAR" case NCLOB => "NCLOB"
    case STRUCT => "STRUCT" case JAVA_OBJECT => "JAVA_OBJECT" case DISTINCT => "DISTINCT"
    case REF => "REF" case DATALINK => "DATALINK" case ROWID => "ROWID"
    case LONGNVARCHAR => "LONGNVARCHAR" case SQLXML => "SQLXML"
    case DATETIMEOFFSET => "DATETIMEOFFSET"
  }

  /** The mapping annotations a property may carry. */
  datatype Annotation = Id | EmbeddedId | Embedded | Transient | Version

  /** `@GeneratedValue(strategy, generator)`. */
  datatype GenerationType = TABLE | SEQUENCE | IDENTITY | AUTO
  datatype GeneratedValue = GeneratedValue(strategy: GenerationType, generator: string)

  /** A declared property: its name, its actual (element) type, and the values
      of its annotations. `nested` holds the properties of the actual type when
      that type is itself a persistent entity (an embeddable or composite key);
      `otherwiseTransient` is what Spring Data's own transience check says, and
      `underscoredName` is what `ParsingUtils.reconcatenateCamelCase(name, "_")`
      returns for the name (a library function that is not part of this model). */
  datatype Property = Property(
    name: string,
    underscoredName: string,
    actualType: JavaType,
    annotations: set<Annotation>,
    column: Option<string>,
    jdbcTypeAnnotation: Option<JdbcType>,
    typeHandler: Option<string>,
    generatedValue: Option<GeneratedValue>,
    otherwiseTransient: bool,
    nested: Option<seq<Property>>)

  /** A persistent entity: class name, alias, table, declared properties. */
  datatype Entity = Entity(
    className: string,
    entityName: string,
    tableName: string,
    declared: seq<Property>)

  /** The table of default JDBC types per Java type. */
  function DefaultJdbcType(t: JavaType): Option<JdbcType>
  {
    match t
    case StringType => Some(VARCHAR)
    case BigDecimalType => Some(NUMERIC)
    case PrimitiveBoolean => Some(BIT)
    case PrimitiveByte => Some(TINYINT)
    case PrimitiveShort => Some(SMALLINT)
    case PrimitiveInt => Some(INTEGER)
    case PrimitiveLong => Some(BIGINT)
    case PrimitiveFloat => Some(REAL)
    case PrimitiveDouble => Some(DOUBLE)
    case ByteArray => Some(VARBINARY)
    case UtilDate => Some(TIMESTAMP)
    case SqlDate => Some(DATE)
    case SqlTime => Some(TIME)
    case SqlTimestamp => Some(TIMESTAMP)
    case BoxedBoolean => Some(BIT)
    case BoxedInteger => Some(INTEGER)
    case BoxedLong => Some(BIGINT)
    case BoxedFloat => Some(REAL)
    case BoxedDouble => Some(DOUBLE)
    case _ => None
  }

  /** isIdProperty: annotated with `@Id` or `@EmbeddedId`. */
  predicate IsIdProperty(p: Property)
  {
    Id in p.annotations || EmbeddedId in p.annotations
  }

  /** isAssociation: annotated with `@Embedded` or `@EmbeddedId`. */
  predicate IsAssociation(p: Property)
  {
    Embedded in p.annotations || EmbeddedId in p.annotations
  }

  /** isTransient: `@Transient`, or transient for Spring Data itself. */
  predicate IsTransient(p: Property)
  {
    Transient in p.annotations || p.otherwiseTransient
  }

  predicate IsVersionProperty(p: Property)
  {
    Version in p.annotations
  }

  /** isEntity: not transient and of a persistent-entity type. */
  predicate IsEntity(p: Property)
  {
    !IsTransient(p) && p.nested.Some?
  }

  /** isCompositeId: an id whose type is itself an entity. */
  function IsCompositeId(p: Property): (r: bool)
    ensures r ==> IsIdProperty(p) && p.nested.Some?
    ensures r <==> IsIdProperty(p) && IsEntity(p)
  {
    IsIdProperty(p) && IsEntity(p)
  }

  datatype Association = EmbeddedAssociation(inverse: string)

  /** createAssociation: an embedded association exactly for the properties
      that report themselves as associations. */
  function CreateAssociation(p: Property): (r: Option<Association>)
    ensures r.Some? <==> IsAssociation(p)
    ensures r.Some? ==> r.value.inverse == p.name
  {
    if Embedded in p.annotations || EmbeddedId in p.annotations
    then Some(EmbeddedAssociation(p.name)) else None
  }

  /** `Character.isWhitespace`: the ASCII controls \t, \n, \u000B, \f, \r and
      \u001C-\u001F, and the Unicode space, line and paragraph separators
      other than the no-break spaces \u00A0, \u2007 and \u202F. */
  predicate IsCharacterWhitespace(c: char)
  {
    IsJavaWhitespace(c) || '\U{1C}' <= c <= '\U{1F}' ||
    c == '\U{1680}' || '\U{2000}' <= c <= '\U{2006}' || '\U{2008}' <= c <= '\U{200A}' ||
    c == '\U{2028}' || c == '\U{2029}' || c == '\U{205F}' || c == '\U{3000}'
  }

  /** `StringUtils.hasText`: some character is not whitespace. */
  predicate HasText(s: string)
  {
    exists k :: 0 <= k < |s| && !IsCharacterWhitespace(s[k])
  }

  /** getColumnName: the `@Column` name when it has text, else the property
      name re-concatenated from its camel-case words with `_`. */
  function ColumnName(p: Property): (r: string)
    ensures p.column.Some? && HasText(p.column.value) ==> r == p.column.value
    ensures p.column.None? ==> r == p.underscoredName
    ensures p.column.Some? && !HasText(p.column.value) ==> r == p.underscoredName
  {
    if p.column.Some? && HasText(p.column.value) then p.column.value
    else p.underscoredName
  }

  /** getJdbcType: the `@JdbcType` annotation, else the table, else UNDEFINED. */
  function JdbcTypeOf(p: Property): (r: JdbcType)
    ensures p.jdbcTypeAnnotation.Some? ==> r == p.jdbcTypeAnnotation.value
    ensures p.jdbcTypeAnnotation.None? && DefaultJdbcType(p.actualType).Some? ==>
              r == DefaultJdbcType(p.actualType).value
    ensures r == UNDEFINED ==>
              p.jdbcTypeAnnotation == Some(UNDEFINED) ||
              (p.jdbcTypeAnnotation.None? && DefaultJdbcType(p.actualType).None?)
  {
    if p.jdbcTypeAnnotation.Some? then p.jdbcTypeAnnotation.value
    else match DefaultJdbcType(p.actualType)
      case Some(t) => t
      case None => UNDEFINED
  }

  /** A primitive and its wrapper class map to the same JDBC type, except byte
      and short, whose wrappers are not in the table; java.util.Date and
      java.sql.Timestamp both map to TIMESTAMP. */
  lemma BoxedTypesAgreeWithPrimitives()
    ensures DefaultJdbcType(BoxedBoolean) == DefaultJdbcType(PrimitiveBoolean)
    ensures DefaultJdbcType(BoxedInteger) == DefaultJdbcType(PrimitiveInt)
    ensures DefaultJdbcType(BoxedLong) == DefaultJdbcType(PrimitiveLong)
    ensures DefaultJdbcType(BoxedFloat) == DefaultJdbcType(PrimitiveFloat)
    ensures DefaultJdbcType(BoxedDouble) == DefaultJdbcType(PrimitiveDouble)
    ensures DefaultJdbcType(BoxedByte).None? && DefaultJdbcType(PrimitiveByte).Some?
    ensures DefaultJdbcType(BoxedShort).None? && DefaultJdbcType(PrimitiveShort).Some?
    ensures DefaultJdbcType(UtilDate) == DefaultJdbcType(SqlTimestamp) == Some(TIMESTAMP)
  {
  }

  /** The properties Spring Data registers: every declared one that is not transient. */
  function Persistent(props: seq<Property>): (r: seq<Property>)
    ensures forall q :: q in r <==> q in props && !IsTransient(q)
    ensures |r| <= |props|
  {
    if props == [] then []
    else (if IsTransient(props[0]) then [] else [props[0]]) + Persistent(props[1..])
  }

  /** doWithProperties visits the registered properties that are not associations. */
  function PlainProperties(props: seq<Property>): (r: seq<Property>)
    ensures forall q :: q in r <==> q in props && !IsTransient(q) && !IsAssociation(q)
  {
    if props == [] then []
    else (if IsTransient(props[0]) || IsAssociation(props[0]) then [] else [props[0]])
         + PlainProperties(props[1..])
  }

  /** doWithAssociations visits the registered properties that are associations. */
  function Associations(props: seq<Property>): (r: seq<Property>)
    ensures forall q :: q in r <==> q in props && !IsTransient(q) && IsAssociation(q)
  {
    if props == [] then []
    else (if !IsTransient(props[0]) && IsAssociation(props[0]) then [props[0]] else [])
         + Associations(props[1..])
  }

  /** The properties of an association's target entity (the obverse side). */
  function EmbeddedProperties(p: Property): seq<Property>
  {
    match p.nested
    case Some(props) => PlainProperties(props)
    case None => []
  }

  /** The id property: the first registered property that is an id. */
  function IdProperty(e: Entity): (r: Option<Property>)
    ensures r.Some? ==> r.value in e.declared && IsIdProperty(r.value) && !IsTransient(r.value)
    ensures r.None? ==> forall q :: q in e.declared && !IsTransient(q) ==> !IsIdProperty(q)
  {
    FirstId(e.declared)
  }

  function FirstId(props: seq<Property>): (r: Option<Property>)
    ensures r.Some? ==> r.value in props && IsIdProperty(r.value) && !IsTransient(r.value)
    ensures r.None? ==> forall q :: q in props && !IsTransient(q) ==> !IsIdProperty(q)
  {
    if props == [] then None
    else if !IsTransient(props[0]) && IsIdProperty(props[0]) then Some(props[0])
    else FirstId(props[1..])
  }

  /** The version property: the first registered property marked `@Version`. */
  function VersionProperty(e: Entity): (r: Option<Property>)
    ensures r.Some? ==> r.value in e.declared && IsVersionProperty(r.value) && !IsTransient(r.value)
    ensures r.None? ==> forall q :: q in e.declared && !IsTransient(q) ==> !IsVersionProperty(q)
  {
    FirstVersion(e.declared)
  }

  function FirstVersion(props: seq<Property>): (r: Option<Property>)
    ensures r.Some? ==> r.value in props && IsVersionProperty(r.value) && !IsTransient(r.value)
    ensures r.None? ==> forall q :: q in props && !IsTransient(q) ==> !IsVersionProperty(q)
  {
    if props == [] then None
    else if !IsTransient(props[0]) && IsVersionProperty(props[0]) then Some(props[0])
    else FirstVersion(props[1..])
  }

  /** The composite-key properties: the plain properties of the id's entity type. */
  function IdSubProperties(id: Property): seq<Property>
  {
    EmbeddedProperties(id)
  }

  /** A composite id is never visited as a plain property: it is an association
      only when declared with `@EmbeddedId`, and a composite `@Id` is visited. */
  lemma EmbeddedIdIsNotPlain(e: Entity, p: Property)
    requires p in e.declared && EmbeddedId in p.annotations
    ensures p !in PlainProperties(e.declared)
    ensures !IsTransient(p) ==> p in Associations(e.declared)
  {
  }
}
