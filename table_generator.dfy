/** TableGenerator: a hi/lo identity allocator. Each segment (by default the
    qualified owner and property name) hands out ids from an in-memory block
    [value, upperLimitValue); when the block is exhausted it reserves the next
    block in a sequence table with a compare-and-set update. The sequence table
    is an in-memory map here, keyed by table name and segment, and calls run
    one at a time. */
module TableGenerator {
  import opened Common

  const DefSegmentLength := 255

  /** TableGeneratorConfig: the instance-wide defaults (null strings = None). */
  datatype Config = Config(
    table: Option<string>, schema: Option<string>, catalog: Option<string>,
    pkColumnName: Option<string>, valueColumnName: Option<string>,
    initialValue: int, allocationSize: int)

  /** The values of a `@javax.persistence.TableGenerator` annotation. */
  datatype TableGeneratorAnnotation = TableGeneratorAnnotation(
    table: string, schema: string, catalog: string,
    pkColumnName: string, valueColumnName: string, pkColumnValue: string,
    initialValue: int, allocationSize: int)

  /** GenerationState: the current value and the value at which the table is hit again. */
  datatype GenerationState = GenerationState(value: int, upperLimitValue: int)

  /** The settings one call of generate works with. */
  datatype Settings = Settings(
    segment: string, tableName: Option<string>,
    segmentColumnName: Option<string>, valueColumnName: Option<string>,
    initialValue: int, incrementSize: int)

  /** `StringUtils.isEmpty`: null or "". */
  predicate IsEmpty(s: Option<string>)
  {
    s.None? || s.value == ""
  }

  /** A possibly-null string as Java's string concatenation prints it. */
  function JavaText(s: Option<string>): string
  {
    if s.Some? then s.value else "null"
  }

  /** The row of the sequence table a call reads and updates. */
  function Key(s: Settings): (string, string)
  {
    (JavaText(s.tableName), s.segment)
  }

  /** Reference definition of one call of generate, on the states and the
      table before the call: the id returned, the new states, the new table. */
  function Next(states: map<string, GenerationState>, rows: map<(string, string), int>, s: Settings)
    : (map<string, GenerationState>, map<(string, string), int>, int)
  {
    var state := if s.segment in states then states[s.segment] else GenerationState(0, 0);
    if state.value < state.upperLimitValue then
      (states[s.segment := GenerationState(state.value + 1, state.upperLimitValue)], rows, state.value)
    else
      var read := if Key(s) in rows then rows[Key(s)] else s.initialValue;
      (states[s.segment := GenerationState(read + 1, read + s.incrementSize)],
       rows[Key(s) := read + s.incrementSize], read)
  }

  /** The configured table name: the table qualified by the schema; with a
      catalog but no schema, qualify(schema, catalog) as the code has it;
      null when the configuration names no table. */
  function ConfiguredTable(qualify: (Option<string>, Option<string>) -> string, c: Config): (r: Option<string>)
    ensures r.None? <==> IsEmpty(c.table)
    ensures !IsEmpty(c.table) && !IsEmpty(c.schema) ==> r == Some(qualify(c.schema, c.table))
    ensures !IsEmpty(c.table) && IsEmpty(c.schema) && !IsEmpty(c.catalog) ==> r == Some(qualify(c.schema, c.catalog))
    ensures !IsEmpty(c.table) && IsEmpty(c.schema) && IsEmpty(c.catalog) ==> r == c.table
  {
    if IsEmpty(c.table) then None
    else if !IsEmpty(c.schema) then Some(qualify(c.schema, c.table))
    else if !IsEmpty(c.catalog) then Some(qualify(c.schema, c.catalog))
    else c.table
  }

  /** The table settings of an annotation, read as a configuration: its table,
      schema and catalog then resolve by the same rule as the instance's. */
  function AnnotationConfig(a: TableGeneratorAnnotation): Config
  {
    Config(Some(a.table), Some(a.schema), Some(a.catalog), Some(a.pkColumnName), Some(a.valueColumnName),
           a.initialValue, a.allocationSize)
  }

  class TableGenerator {
    /** `StringUtils.qualify`, a library function that is not part of this model. */
    const qualify: (Option<string>, Option<string>) -> string

    var tableName: Option<string>
    var segmentColumnName: Option<string>
    var valueColumnName: Option<string>
    var initialValue: int
    var incrementSize: int

    /** generationStateMapping */
    var states: map<string, GenerationState>
    /** The contents of the sequence tables. */
    var rows: map<(string, string), int>

    /** The constructor: the instance defaults from the configuration. With a
        catalog but no schema the table name is qualify(schema, catalog). */
    constructor(qualify: (Option<string>, Option<string>) -> string, config: Option<Config>, rows: map<(string, string), int>)
      ensures this.qualify == qualify && this.rows == rows && states == map[]
      ensures config.None? ==> tableName.None? && segmentColumnName.None? && valueColumnName.None? &&
                               initialValue == 0 && incrementSize == 0
      ensures config.Some? ==> tableName == ConfiguredTable(qualify, config.value)
      ensures config.Some? ==> segmentColumnName == (if IsEmpty(config.value.pkColumnName) then None else config.value.pkColumnName)
      ensures config.Some? ==> valueColumnName == (if IsEmpty(config.value.valueColumnName) then None else config.value.valueColumnName)
      ensures config.Some? ==> initialValue == (if config.value.initialValue > 0 then config.value.initialValue else 0)
      ensures config.Some? ==> incrementSize == config.value.allocationSize
    {
      this.qualify := qualify;
      this.rows := rows;
      states := map[];
      tableName := None;
      segmentColumnName := None;
      valueColumnName := None;
      initialValue := 0;
      incrementSize := 0;
      new;
      if config.Some? {
        var c := config.value;
        if !IsEmpty(c.table) {
          if !IsEmpty(c.schema) {
            tableName := Some(qualify(c.schema, c.table));
          } else if !IsEmpty(c.catalog) {
            tableName := Some(qualify(c.schema, c.catalog));
          } else {
            tableName := c.table;
          }
        }
        if !IsEmpty(c.pkColumnName) {
          segmentColumnName := c.pkColumnName;
        }
        if !IsEmpty(c.valueColumnName) {
          valueColumnName := c.valueColumnName;
        }
        if c.initialValue > 0 {
          initialValue := c.initialValue;
        }
        incrementSize := c.allocationSize;
      }
    }

    /** The settings of a call: the instance defaults, overridden by the
        non-empty annotation values; the initial value only when positive, the
        allocation size always. */
    function SettingsFor(owner: string, property: string, annotation: Option<TableGeneratorAnnotation>): (s: Settings)
      reads this
      ensures annotation.None? ==>
                s == Settings(qualify(Some(owner), Some(property)), tableName, segmentColumnName, valueColumnName, initialValue, incrementSize)
      ensures annotation.Some? ==> s.incrementSize == annotation.value.allocationSize
      ensures annotation.Some? && annotation.value.pkColumnValue != "" ==> s.segment == annotation.value.pkColumnValue
      ensures annotation.Some? && annotation.value.pkColumnValue == "" ==> s.segment == qualify(Some(owner), Some(property))
      ensures annotation.Some? && annotation.value.initialValue <= 0 ==> s.initialValue == initialValue
      ensures annotation.Some? && annotation.value.table == "" ==> s.tableName == tableName
      ensures annotation.Some? && annotation.value.table != "" ==>
                s.tableName == ConfiguredTable(qualify, AnnotationConfig(annotation.value))
      ensures annotation.Some? && annotation.value.pkColumnName != "" ==> s.segmentColumnName == Some(annotation.value.pkColumnName)
      ensures annotation.Some? && annotation.value.pkColumnName == "" ==> s.segmentColumnName == segmentColumnName
      ensures annotation.Some? && annotation.value.valueColumnName != "" ==> s.valueColumnName == Some(annotation.value.valueColumnName)
      ensures annotation.Some? && annotation.value.valueColumnName == "" ==> s.valueColumnName == valueColumnName
      ensures annotation.Some? && annotation.value.initialValue > 0 ==> s.initialValue == annotation.value.initialValue
    {
      var segment := qualify(Some(owner), Some(property));
      match annotation
      case None => Settings(segment, tableName, segmentColumnName, valueColumnName, initialValue, incrementSize)
      case Some(a) =>
        Settings(
          if a.pkColumnValue != "" then a.pkColumnValue else segment,
          if a.table == "" then tableName
          else if a.schema != "" then Some(qualify(Some(a.schema), Some(a.table)))
          else if a.catalog != "" then Some(qualify(Some(a.schema), Some(a.catalog)))
          else Some(a.table),
          if a.pkColumnName != "" then Some(a.pkColumnName) else segmentColumnName,
          if a.valueColumnName != "" then Some(a.valueColumnName) else valueColumnName,
          if a.initialValue > 0 then a.initialValue else initialValue,
          a.allocationSize)
    }

    /** generate: the next id of the segment. Inside the block the current
        value is returned and incremented; otherwise the stored value is read
        (the row is inserted with the initial value when absent) and the next
        block reserved by a compare-and-set update, retried while no row is
        updated. */
    method Generate(owner: string, property: string, annotation: Option<TableGeneratorAnnotation>) returns (id: int)
      modifies this
      ensures tableName == old(tableName) && segmentColumnName == old(segmentColumnName)
      ensures valueColumnName == old(valueColumnName)
      ensures initialValue == old(initialValue) && incrementSize == old(incrementSize)
      ensures (states, rows, id) == Next(old(states), old(rows), old(SettingsFor(owner, property, annotation)))
    {
      var s := SettingsFor(owner, property, annotation);
      ghost var states0, rows0 := states, rows;
      if s.segment !in states {
        states := states[s.segment := GenerationState(0, 0)];
      }
      var state := states[s.segment];
      if state.value < state.upperLimitValue {
        id := state.value;
        states := states[s.segment := GenerationState(state.value + 1, state.upperLimitValue)];
        return;
      }
      var key := Key(s);
      var updated := 0;
      var value := 0;
      ghost var states1 := states;
      while updated == 0
        invariant states == states1
        invariant tableName == old(tableName) && segmentColumnName == old(segmentColumnName)
        invariant valueColumnName == old(valueColumnName)
        invariant initialValue == old(initialValue) && incrementSize == old(incrementSize)
        invariant updated == 0 ==> rows == rows0
        invariant updated != 0 ==> value == (if key in rows0 then rows0[key] else s.initialValue)
        invariant updated != 0 ==> rows == rows0[key := value + s.incrementSize]
        decreases if updated == 0 then 1 else 0
      {
        if key in rows {
          value := rows[key];
        } else {
          rows := rows[key := s.initialValue];
          value := s.initialValue;
        }
        var matched := rows[key] == value;
        if matched {
          rows := rows[key := value + s.incrementSize];
        }
        updated := if matched then 1 else 0;
      }
      states := states[s.segment := GenerationState(value + 1, value + s.incrementSize)];
      id := value;
      assert states == states0[s.segment := GenerationState(value + 1, value + s.incrementSize)];
    }
  }

  /** Every block is well formed: the current value never passes the limit. */
  predicate BlocksValid(states: map<string, GenerationState>)
  {
    forall seg :: seg in states ==> states[seg].value <= states[seg].upperLimitValue
  }

  /** Inside the block: the current value is returned and the table is untouched. */
  lemma InBlock(states: map<string, GenerationState>, rows: map<(string, string), int>, s: Settings)
    requires s.segment in states && states[s.segment].value < states[s.segment].upperLimitValue
    ensures Next(states, rows, s).2 == states[s.segment].value
    ensures Next(states, rows, s).1 == rows
    ensures Next(states, rows, s).0[s.segment].value == states[s.segment].value + 1
  {
  }

  /** Refresh: the id is the stored value (the initial value for a new row),
      the stored value moves on by the increment, and the block becomes
      [id, id + incrementSize) with id already handed out. */
  lemma Refresh(states: map<string, GenerationState>, rows: map<(string, string), int>, s: Settings)
    requires s.segment !in states || states[s.segment].value >= states[s.segment].upperLimitValue
    ensures var (states', rows', id) := Next(states, rows, s);
            id == (if Key(s) in rows then rows[Key(s)] else s.initialValue) &&
            rows' == rows[Key(s) := id + s.incrementSize] &&
            states'[s.segment] == GenerationState(id + 1, id + s.incrementSize)
  {
  }

  /** With a positive increment every call keeps the blocks well formed. */
  lemma NextKeepsBlocksValid(states: map<string, GenerationState>, rows: map<(string, string), int>, s: Settings)
    requires s.incrementSize >= 1 && BlocksValid(states)
    ensures BlocksValid(Next(states, rows, s).0)
  {
  }

  /** The table is ahead of the segment's block: the stored value is at least
      the block's limit. */
  predicate TableAhead(states: map<string, GenerationState>, rows: map<(string, string), int>, s: Settings)
  {
    s.segment in states ==> Key(s) in rows && states[s.segment].upperLimitValue <= rows[Key(s)]
  }

  /** With a positive increment, while only this generator touches the row,
      successive ids of a segment strictly increase — even across blocks. */
  lemma IdsIncrease(states: map<string, GenerationState>, rows: map<(string, string), int>, s: Settings)
    requires s.incrementSize >= 1 && BlocksValid(states) && TableAhead(states, rows, s)
    ensures var (states', rows', id) := Next(states, rows, s);
            BlocksValid(states') && TableAhead(states', rows', s) && Next(states', rows', s).2 > id
  {
    var (states', rows', id) := Next(states, rows, s);
    assert states'[s.segment].value == id + 1;
    assert states'[s.segment].upperLimitValue <= rows'[Key(s)];
  }

  /** The ids of `count` successive calls with the same settings. */
  function Ids(states: map<string, GenerationState>, rows: map<(string, string), int>, s: Settings, count: nat): seq<int>
    decreases count
  {
    if count == 0 then []
    else
      var (states', rows', id) := Next(states, rows, s);
      [id] + Ids(states', rows', s, count - 1)
  }

  /** The ids of one block are consecutive: from a block with room for n more
      ids, the next n calls return value, value + 1, ..., value + n - 1 and
      leave the table alone. */
  lemma {:induction false} BlockIdsConsecutive(states: map<string, GenerationState>, rows: map<(string, string), int>, s: Settings, n: nat)
    requires s.segment in states
    requires n <= states[s.segment].upperLimitValue - states[s.segment].value
    ensures var ids := Ids(states, rows, s, n);
            |ids| == n && forall k :: 0 <= k < n ==> ids[k] == states[s.segment].value + k
    decreases n
  {
    if n > 0 {
      var (states', rows', id) := Next(states, rows, s);
      assert id == states[s.segment].value;
      assert states'[s.segment] == GenerationState(id + 1, states[s.segment].upperLimitValue);
      BlockIdsConsecutive(states', rows', s, n - 1);
      var ids := Ids(states, rows, s, n);
      assert ids == [id] + Ids(states', rows', s, n - 1);
    }
  }

  // ---------------------------------------------------------------------------
  // The statements against the sequence table

  /** The select of the stored value. */
  function SelectQuery(qualify: (Option<string>, Option<string>) -> string, tableName: Option<string>,
                       valueColumnName: Option<string>, segmentColumnName: Option<string>): string
  {
    "select " + qualify(Some("tbl"), valueColumnName) + " from " + JavaText(tableName) + " " + "tbl" +
    " where " + qualify(Some("tbl"), segmentColumnName) + "=?"
  }

  /** The compare-and-set update: new value, expected value, segment. */
  function UpdateQuery(tableName: Option<string>, valueColumnName: Option<string>, segmentColumnName: Option<string>): string
  {
    "update " + JavaText(tableName) + " set " + JavaText(valueColumnName) + "=? " + " where " +
    JavaText(valueColumnName) + "=? and " + JavaText(segmentColumnName) + "=?"
  }

  /** The insert of a new row: segment, initial value. */
  function InsertQuery(tableName: Option<string>, valueColumnName: Option<string>, segmentColumnName: Option<string>): string
  {
    "insert into " + JavaText(tableName) + " (" + JavaText(segmentColumnName) + ", " +
    JavaText(valueColumnName) + ") " + " values (?,?)"
  }
}
