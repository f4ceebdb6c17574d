/** The `java.sql.Types` codes the dialects register type names for. */
module SqlTypes {
  const BIT := -7
  const TINYINT := -6
  const SMALLINT := 5
  const INTEGER := 4
  const BIGINT := -5
  const FLOAT := 6
  const REAL := 7
  const DOUBLE := 8
  const NUMERIC := 2
  const DECIMAL := 3
  const CHAR := 1
  const VARCHAR := 12
  const LONGVARCHAR := -1
  const DATE := 91
  const TIME := 92
  const TIMESTAMP := 93
  const BINARY := -2
  const VARBINARY := -3
  const LONGVARBINARY := -4
  const BLOB := 2004
  const CLOB := 2005
  const BOOLEAN := 16
  const NCHAR := -15
  const NVARCHAR := -9
  const LONGNVARCHAR := -16
  const NCLOB := 2011
}

/** Dialect and its H2, DB2 and Oracle subclasses: identifier quoting, the
    table of database type names per JDBC type code (filled by the
    constructors), and the limit handlers that wrap a select into a paged one. */
module Dialects {
  import opened Common
  import SqlTypes

  /** Which class the dialect object is: the base class or one of its subclasses. */
  datatype DialectKind = Base | H2 | DB2 | Oracle

  /** openQuote / closeQuote: every dialect quotes with a double quote. */
  function OpenQuote(kind: DialectKind): char { '"' }

  function CloseQuote(kind: DialectKind): char { '"' }

  /** quote(name): null stays null; a name that starts with a back-quote has its
      first and last characters replaced by the dialect's quotes; any other name
      is returned as is. `charAt(0)` on "" and `substring(1, 0)` on a lone
      back-quote throw. */
  function Quote(kind: DialectKind, name: Option<string>): (r: Result<Option<string>, Failure>)
    ensures name.None? ==> r == Ok(None)
    ensures name.Some? && name.value == [] ==> r.Err?
    ensures name.Some? && name.value != [] && name.value[0] != '`' ==> r == Ok(name)
    ensures name.Some? && |name.value| >= 2 && name.value[0] == '`' ==>
              r.Ok? && r.value.Some? && |r.value.value| == |name.value| &&
              r.value.value[0] == OpenQuote(kind) &&
              r.value.value[|r.value.value| - 1] == CloseQuote(kind) &&
              r.value.value[1..|r.value.value| - 1] == name.value[1..|name.value| - 1]
  {
    match name
    case None => Ok(None)
    case Some(n) =>
      if |n| == 0 then Err(IndexOutOfBounds)
      else if n[0] == '`' then
        if |n| < 2 then Err(IndexOutOfBounds)
        else Ok(Some([OpenQuote(kind)] + n[1..|n| - 1] + [CloseQuote(kind)]))
      else Ok(name)
  }

  /** Quoting is idempotent: a quoted name no longer starts with a back-quote. */
  lemma QuoteIdempotent(kind: DialectKind, name: Option<string>)
    requires Quote(kind, name).Ok?
    ensures Quote(kind, Quote(kind, name).value) == Quote(kind, name)
  {
  }

  /** wrapTableName / wrapColumnName: the identity in every dialect. */
  function WrapTableName(kind: DialectKind, tableName: string): string
  {
    tableName
  }

  function WrapColumnName(kind: DialectKind, columnName: string): string
  {
    columnName
  }

  /** supportsDeleteAlias: no dialect allows `delete alias from table alias`. */
  function SupportsDeleteAlias(kind: DialectKind): bool { false }

  /** The base constructor's registrations applied to a table. */
  function BaseRegistrations(m: map<int, string>): map<int, string>
  {
    m
      [SqlTypes.BIT := "bit"]
      [SqlTypes.BOOLEAN := "boolean"]
      [SqlTypes.TINYINT := "tinyint"]
      [SqlTypes.SMALLINT := "smallint"]
      [SqlTypes.INTEGER := "integer"]
      [SqlTypes.BIGINT := "bigint"]
      [SqlTypes.FLOAT := "float($p)"]
      [SqlTypes.DOUBLE := "double precision"]
      [SqlTypes.NUMERIC := "numeric($p,$s)"]
      [SqlTypes.REAL := "real"]
      [SqlTypes.DATE := "date"]
      [SqlTypes.TIME := "time"]
      [SqlTypes.TIMESTAMP := "timestamp"]
      [SqlTypes.VARBINARY := "bit varying($l)"]
      [SqlTypes.LONGVARBINARY := "bit varying($l)"]
      [SqlTypes.BLOB := "blob"]
      [SqlTypes.CHAR := "char($l)"]
      [SqlTypes.VARCHAR := "varchar($l)"]
      [SqlTypes.LONGVARCHAR := "varchar($l)"]
      [SqlTypes.CLOB := "clob"]
      [SqlTypes.NCHAR := "nchar($l)"]
      [SqlTypes.NVARCHAR := "nvarchar($l)"]
      [SqlTypes.LONGNVARCHAR := "nvarchar($l)"]
      [SqlTypes.NCLOB := "nclob"]
  }

  /** The H2 constructor's own registrations applied to a table. */
  function H2Registrations(m: map<int, string>): map<int, string>
  {
    m
      [SqlTypes.BOOLEAN := "boolean"]
      [SqlTypes.BIGINT := "bigint"]
      [SqlTypes.BINARY := "binary"]
      [SqlTypes.BIT := "boolean"]
      [SqlTypes.CHAR := "char($l)"]
      [SqlTypes.DATE := "date"]
      [SqlTypes.DECIMAL := "decimal($p,$s)"]
      [SqlTypes.NUMERIC := "decimal($p,$s)"]
      [SqlTypes.DOUBLE := "double"]
      [SqlTypes.FLOAT := "float"]
      [SqlTypes.INTEGER := "integer"]
      [SqlTypes.LONGVARBINARY := "longvarbinary"]
      [SqlTypes.LONGVARCHAR := "varchar(" + IntToString(Int32Max) + ")"]
      [SqlTypes.REAL := "real"]
      [SqlTypes.SMALLINT := "smallint"]
      [SqlTypes.TINYINT := "tinyint"]
      [SqlTypes.TIME := "time"]
      [SqlTypes.TIMESTAMP := "timestamp"]
      [SqlTypes.VARCHAR := "varchar($l)"]
      [SqlTypes.VARBINARY := "binary($l)"]
      [SqlTypes.BLOB := "blob"]
      [SqlTypes.CLOB := "clob"]
  }

  /** The DB2 constructor's own (unsized) registrations applied to a table. */
  function DB2Registrations(m: map<int, string>): map<int, string>
  {
    m
      [SqlTypes.BIT := "smallint"]
      [SqlTypes.BIGINT := "bigint"]
      [SqlTypes.SMALLINT := "smallint"]
      [SqlTypes.TINYINT := "smallint"]
      [SqlTypes.INTEGER := "integer"]
      [SqlTypes.CHAR := "char(1)"]
      [SqlTypes.VARCHAR := "varchar($l)"]
      [SqlTypes.FLOAT := "float"]
      [SqlTypes.DOUBLE := "double"]
      [SqlTypes.DATE := "date"]
      [SqlTypes.TIME := "time"]
      [SqlTypes.TIMESTAMP := "timestamp"]
      [SqlTypes.VARBINARY := "varchar($l) for bit data"]
      [SqlTypes.NUMERIC := "numeric($p,$s)"]
      [SqlTypes.BLOB := "blob($l)"]
      [SqlTypes.CLOB := "clob($l)"]
      [SqlTypes.LONGVARCHAR := "long varchar"]
      [SqlTypes.LONGVARBINARY := "long varchar for bit data"]
      [SqlTypes.BINARY := "varchar($l) for bit data"]
      [SqlTypes.BOOLEAN := "smallint"]
  }

  /** The type names the base constructor registers. */
  function BaseTypeNames(): map<int, string>
  {
    BaseRegistrations(map[])
  }

  /** The type names after the H2 constructor has re-registered its own. */
  function H2TypeNames(): map<int, string>
  {
    H2Registrations(BaseTypeNames())
  }

  /** The type names after the DB2 constructor has re-registered its own. */
  function DB2TypeNames(): map<int, string>
  {
    DB2Registrations(BaseTypeNames())
  }

  /** The type table each dialect ends up with (Oracle has no constructor). */
  function TypeNamesFor(kind: DialectKind): map<int, string>
  {
    match kind
    case Base => BaseTypeNames()
    case H2 => H2TypeNames()
    case DB2 => DB2TypeNames()
    case Oracle => BaseTypeNames()
  }

  /** The capacity-bounded type names: only DB2 registers one. */
  function SizedTypeNamesFor(kind: DialectKind): map<(int, int), string>
  {
    if kind == DB2 then map[(SqlTypes.BINARY, 254) := "char($l) for bit data"] else map[]
  }

  const Int32Max := 0x7fff_ffff

  /** A dialect object: its kind and its type-name table, which the constructor
      fills through successive registerColumnType calls. */
  class Dialect {
    const kind: DialectKind
    var typeNames: map<int, string>
    var sizedTypeNames: map<(int, int), string>

    /** The base constructor's registrations, then the subclass's. */
    constructor (kind: DialectKind)
      ensures this.kind == kind
      ensures typeNames == TypeNamesFor(kind)
      ensures sizedTypeNames == SizedTypeNamesFor(kind)
    {
      this.kind := kind;
      typeNames := map[];
      sizedTypeNames := map[];
      new;
      RegisterBaseTypes();
      if kind == H2 {
        RegisterH2Types();
      } else if kind == DB2 {
        RegisterDB2Types();
      }
    }

    /** The base constructor's registrations. */
    method RegisterBaseTypes()
      modifies this
      ensures typeNames == BaseRegistrations(old(typeNames))
      ensures sizedTypeNames == old(sizedTypeNames)
    {
      RegisterColumnType(SqlTypes.BIT, "bit");
      RegisterColumnType(SqlTypes.BOOLEAN, "boolean");
      RegisterColumnType(SqlTypes.TINYINT, "tinyint");
      RegisterColumnType(SqlTypes.SMALLINT, "smallint");
      RegisterColumnType(SqlTypes.INTEGER, "integer");
      RegisterColumnType(SqlTypes.BIGINT, "bigint");
      RegisterColumnType(SqlTypes.FLOAT, "float($p)");
      RegisterColumnType(SqlTypes.DOUBLE, "double precision");
      RegisterColumnType(SqlTypes.NUMERIC, "numeric($p,$s)");
      RegisterColumnType(SqlTypes.REAL, "real");
      RegisterColumnType(SqlTypes.DATE, "date");
      RegisterColumnType(SqlTypes.TIME, "time");
      RegisterColumnType(SqlTypes.TIMESTAMP, "timestamp");
      RegisterColumnType(SqlTypes.VARBINARY, "bit varying($l)");
      RegisterColumnType(SqlTypes.LONGVARBINARY, "bit varying($l)");
      RegisterColumnType(SqlTypes.BLOB, "blob");
      RegisterColumnType(SqlTypes.CHAR, "char($l)");
      RegisterColumnType(SqlTypes.VARCHAR, "varchar($l)");
      RegisterColumnType(SqlTypes.LONGVARCHAR, "varchar($l)");
      RegisterColumnType(SqlTypes.CLOB, "clob");
      RegisterColumnType(SqlTypes.NCHAR, "nchar($l)");
      RegisterColumnType(SqlTypes.NVARCHAR, "nvarchar($l)");
      RegisterColumnType(SqlTypes.LONGNVARCHAR, "nvarchar($l)");
      RegisterColumnType(SqlTypes.NCLOB, "nclob");
    }

    /** The H2 constructor's registrations, after the base ones. */
    method RegisterH2Types()
      modifies this
      ensures typeNames == H2Registrations(old(typeNames))
      ensures sizedTypeNames == old(sizedTypeNames)
    {
      RegisterColumnType(SqlTypes.BOOLEAN, "boolean");
      RegisterColumnType(SqlTypes.BIGINT, "bigint");
      RegisterColumnType(SqlTypes.BINARY, "binary");
      RegisterColumnType(SqlTypes.BIT, "boolean");
      RegisterColumnType(SqlTypes.CHAR, "char($l)");
      RegisterColumnType(SqlTypes.DATE, "date");
      RegisterColumnType(SqlTypes.DECIMAL, "decimal($p,$s)");
      RegisterColumnType(SqlTypes.NUMERIC, "decimal($p,$s)");
      RegisterColumnType(SqlTypes.DOUBLE, "double");
      RegisterColumnType(SqlTypes.FLOAT, "float");
      RegisterColumnType(SqlTypes.INTEGER, "integer");
      RegisterColumnType(SqlTypes.LONGVARBINARY, "longvarbinary");
      RegisterColumnType(SqlTypes.LONGVARCHAR, "varchar(" + IntToString(Int32Max) + ")");
      RegisterColumnType(SqlTypes.REAL, "real");
      RegisterColumnType(SqlTypes.SMALLINT, "smallint");
      RegisterColumnType(SqlTypes.TINYINT, "tinyint");
      RegisterColumnType(SqlTypes.TIME, "time");
      RegisterColumnType(SqlTypes.TIMESTAMP, "timestamp");
      RegisterColumnType(SqlTypes.VARCHAR, "varchar($l)");
      RegisterColumnType(SqlTypes.VARBINARY, "binary($l)");
      RegisterColumnType(SqlTypes.BLOB, "blob");
      RegisterColumnType(SqlTypes.CLOB, "clob");
    }

    /** The DB2 constructor's registrations, after the base ones; the sized
        BINARY name is registered between the BINARY and BOOLEAN defaults. */
    method RegisterDB2Types()
      modifies this
      ensures typeNames == DB2Registrations(old(typeNames))
      ensures sizedTypeNames == old(sizedTypeNames)[(SqlTypes.BINARY, 254) := "char($l) for bit data"]
    {
      RegisterColumnType(SqlTypes.BIT, "smallint");
      RegisterColumnType(SqlTypes.BIGINT, "bigint");
      RegisterColumnType(SqlTypes.SMALLINT, "smallint");
      RegisterColumnType(SqlTypes.TINYINT, "smallint");
      RegisterColumnType(SqlTypes.INTEGER, "integer");
      RegisterColumnType(SqlTypes.CHAR, "char(1)");
      RegisterColumnType(SqlTypes.VARCHAR, "varchar($l)");
      RegisterColumnType(SqlTypes.FLOAT, "float");
      RegisterColumnType(SqlTypes.DOUBLE, "double");
      RegisterColumnType(SqlTypes.DATE, "date");
      RegisterColumnType(SqlTypes.TIME, "time");
      RegisterColumnType(SqlTypes.TIMESTAMP, "timestamp");
      RegisterColumnType(SqlTypes.VARBINARY, "varchar($l) for bit data");
      RegisterColumnType(SqlTypes.NUMERIC, "numeric($p,$s)");
      RegisterColumnType(SqlTypes.BLOB, "blob($l)");
      RegisterColumnType(SqlTypes.CLOB, "clob($l)");
      RegisterColumnType(SqlTypes.LONGVARCHAR, "long varchar");
      RegisterColumnType(SqlTypes.LONGVARBINARY, "long varchar for bit data");
      RegisterColumnType(SqlTypes.BINARY, "varchar($l) for bit data");
      RegisterSizedColumnType(SqlTypes.BINARY, 254, "char($l) for bit data");
      RegisterColumnType(SqlTypes.BOOLEAN, "smallint");
    }

    /** registerColumnType(code, name): the default name for the code. */
    method RegisterColumnType(code: int, name: string)
      modifies this
      ensures typeNames == old(typeNames)[code := name]
      ensures sizedTypeNames == old(sizedTypeNames)
    {
      typeNames := typeNames[code := name];
    }

    /** registerColumnType(code, capacity, name): the name for lengths up to capacity. */
    method RegisterSizedColumnType(code: int, capacity: int, name: string)
      modifies this
      ensures typeNames == old(typeNames)
      ensures sizedTypeNames == old(sizedTypeNames)[(code, capacity) := name]
    {
      sizedTypeNames := sizedTypeNames[(code, capacity) := name];
    }

    /** getTypeName(code): the registered default, or a MappingException. */
    function TypeName(code: int): (r: Result<string, Failure>)
      reads this
      ensures r.Ok? <==> code in typeNames
      ensures r.Ok? ==> r.value == typeNames[code]
      ensures r.Err? ==> r.error == Mapping("No default type mapping for (java.sql.Types) " + IntToString(code))
    {
      if code in typeNames then Ok(typeNames[code])
      else Err(Mapping("No default type mapping for (java.sql.Types) " + IntToString(code)))
    }

    /** getTypeName(code, length, precision, scale): what the type table answers
        for the sized lookup is passed in (the table's lookup is not part of this
        model); a missing answer is a MappingException naming code and length. */
    function SizedTypeName(code: int, length: int, lookup: Option<string>): (r: Result<string, Failure>)
      ensures lookup.Some? ==> r == Ok(lookup.value)
      ensures lookup.None? ==>
        r == Err(Mapping("No type mapping for java.sql.Types code: " + IntToString(code) +
                         ", length: " + IntToString(length)))
    {
      match lookup
      case Some(name) => Ok(name)
      case None => Err(Mapping("No type mapping for java.sql.Types code: " + IntToString(code) +
                               ", length: " + IntToString(length)))
    }
  }

  /** Every code the base dialect knows is still known in every subclass: the
      subclasses only override or add names. */
  lemma SubclassesKeepBaseCodes(kind: DialectKind)
    ensures BaseTypeNames().Keys <= TypeNamesFor(kind).Keys
  {
  }

  /** The subclasses differ from the base class on BIT: H2 maps it to `boolean`
      and DB2 to `smallint`; Oracle keeps `bit`. */
  lemma BitTypeNames()
    ensures TypeNamesFor(Base)[SqlTypes.BIT] == "bit"
    ensures TypeNamesFor(H2)[SqlTypes.BIT] == "boolean"
    ensures TypeNamesFor(DB2)[SqlTypes.BIT] == "smallint"
    ensures TypeNamesFor(Oracle)[SqlTypes.BIT] == "bit"
  {
  }

  // ---------------------------------------------------------------------------
  // Limit handlers

  const PageSuffixWithOffset := " limit #{pageSize} offset #{offset}"
  const PageSuffix := " limit #{pageSize}"
  const DB2Prefix := "select * from ( select inner2_.*, rownumber() over(order by order of inner2_) as rownumber_ from ( "
  const DB2FragmentSuffix := " ) as inner2_ )  where rownumber_ <![CDATA[<=]]> #{offsetEnd} and rownumber_ <![CDATA[>]]> #{offset}"
  const OraclePrefix := "select * from ( select row_.*, rownum rownum_ from ( "
  const OracleFragmentSuffix := " ) row_ where rownum <![CDATA[<=]]> #{offsetEnd}) where rownum_ <![CDATA[>]]> #{offset}"

  /** The plain select the limit handlers wrap. */
  function PlainSelect(columns: string, from: string, condition: string, sorts: string): string
  {
    "select " + columns + from + condition + sorts
  }

  /** getLimitHandler().processSql(hasFirstRow, columns, from, condition, sorts):
      the paged select of a mapper statement with MyBatis placeholders. The base
      dialect has no limit handler. DB2 and Oracle define only the four-argument
      form, which the five-argument one is taken to forward to. */
  function PagedSelect(kind: DialectKind, hasFirstRow: bool, columns: string, from: string,
                       condition: string, sorts: string): (r: Result<string, Failure>)
    ensures kind == Base <==> r.Err?
    ensures r.Ok? ==> exists prefix, suffix ::
              r.value == prefix + PlainSelect(columns, from, condition, sorts) + suffix
  {
    var sql := PlainSelect(columns, from, condition, sorts);
    match kind
    case Base => Err(NullPointer)
    case H2 =>
      assert sql + (if hasFirstRow then PageSuffixWithOffset else PageSuffix)
          == "" + sql + (if hasFirstRow then PageSuffixWithOffset else PageSuffix);
      Ok(sql + (if hasFirstRow then PageSuffixWithOffset else PageSuffix))
    case DB2 => Ok(DB2Prefix + sql + DB2FragmentSuffix)
    case Oracle => Ok(OraclePrefix + sql + OracleFragmentSuffix)
  }

  /** H2 pages with `limit`, adding `offset` only when a first row is given. */
  lemma H2OffsetOnlyWithFirstRow(columns: string, from: string, condition: string, sorts: string)
    ensures PagedSelect(H2, true, columns, from, condition, sorts).value ==
            PagedSelect(H2, false, columns, from, condition, sorts).value + " offset #{offset}"
  {
  }

  /** The native form processSql(sql, pageSize, offset, offsetEnd) used when a
      native query is paged: DB2 and Oracle inline the bounds; the base dialect
      has no handler, and H2 inherits a form that is not part of this model. */
  function NativePagedSelect(kind: DialectKind, sql: string, offset: int, offsetEnd: int): (r: Option<Result<string, Failure>>)
    ensures kind == Base ==> r == Some(Err(NullPointer))
    ensures kind == H2 <==> r.None?
    ensures r.Some? && r.value.Ok? ==> NativePrefix(kind) + sql <= r.value.value
  {
    match kind
    case Base => Some(Err(NullPointer))
    case H2 => None
    case DB2 =>
      var tail := " ) as inner2_ )  where rownumber_ <= " + IntToString(offsetEnd) +
                  "   and rownumber_ > " + IntToString(offset);
      WrappedStartsWith(DB2Prefix + sql, tail);
      Some(Ok(DB2Prefix + sql + tail))
    case Oracle =>
      var tail := " ) row_ where rownum  <=" + IntToString(offsetEnd) + ") where rownum_ > " + IntToString(offset);
      WrappedStartsWith(OraclePrefix + sql, tail);
      Some(Ok(OraclePrefix + sql + tail))
  }

  lemma WrappedStartsWith(head: string, tail: string)
    ensures head <= head + tail
  {
    assert (head + tail)[..|head|] == head;
  }

  function NativePrefix(kind: DialectKind): string
  {
    match kind
    case DB2 => DB2Prefix
    case Oracle => OraclePrefix
    case _ => ""
  }

  /** The wrapped query can be cut back out of a DB2 or Oracle paged select:
      wrapping is injective in the query. */
  lemma NativeWrapRecoversQuery(kind: DialectKind, sql: string, offset: int, offsetEnd: int)
    requires kind == DB2 || kind == Oracle
    ensures var r := NativePagedSelect(kind, sql, offset, offsetEnd).value.value;
      |NativePrefix(kind)| + |sql| <= |r| &&
      r[|NativePrefix(kind)|..|NativePrefix(kind)| + |sql|] == sql
  {
    var r := NativePagedSelect(kind, sql, offset, offsetEnd).value.value;
    var p := NativePrefix(kind);
    assert r[..|p| + |sql|] == p + sql;
    assert r[|p|..|p| + |sql|] == (p + sql)[|p|..];
  }
}
