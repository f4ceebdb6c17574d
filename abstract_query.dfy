/** AbstractMybatisQuery: the statement a repository query method runs, the
    execution chosen for it, and the conversion of tuple results. */
module AbstractQuery {
  import opened Common

  datatype StatementType = AUTO | INSERT | UPDATE | SELECT_ONE | SELECT_LIST | DELETE | PAGE | STREAM | SLICE

  /** The `@Statement` annotation: statement name, namespace and type
      (the strings default to empty). */
  datatype StatementAnnotation = StatementAnnotation(value: string, namespace: string, statementType: StatementType)

  /** What the query method tells about itself: its name, the entity's Java
      type name, its annotation, the shape of its return type, and whether its
      name parses to an exists projection. */
  datatype QueryMethod = QueryMethod(
    name: string,
    entityTypeName: string,
    annotation: Option<StatementAnnotation>,
    isStreamQuery: bool,
    isSliceQuery: bool,
    isPageQuery: bool,
    isCollectionQuery: bool,
    isExistsProjection: bool)

  predicate IsNativeStatement(m: QueryMethod)
  {
    m.annotation.Some?
  }

  /** The statement name: the annotation's value, or the method name when there
      is no annotation or its value is empty. */
  function StatementName(m: QueryMethod): (r: string)
    ensures m.annotation.Some? && m.annotation.value.value != "" ==> r == m.annotation.value.value
    ensures m.annotation.None? || m.annotation.value.value == "" ==> r == m.name
  {
    if m.annotation.None? || m.annotation.value.value == "" then m.name else m.annotation.value.value
  }

  /** The namespace: the annotation's namespace, or the entity's Java type name
      when there is no annotation or its namespace is empty. */
  function Namespace(m: QueryMethod): (r: string)
    ensures m.annotation.Some? && m.annotation.value.namespace != "" ==> r == m.annotation.value.namespace
    ensures m.annotation.None? || m.annotation.value.namespace == "" ==> r == m.entityTypeName
  {
    if m.annotation.None? || m.annotation.value.namespace == "" then m.entityTypeName else m.annotation.value.namespace
  }

  /** The statement the method runs: its name inside the namespace. */
  function StatementId(m: QueryMethod): (r: string)
    ensures |r| == |Namespace(m)| + 1 + |StatementName(m)|
    ensures r[..|Namespace(m)| + 1] == Namespace(m) + "."
    ensures r[|Namespace(m)| + 1..] == StatementName(m)
  {
    Namespace(m) + "." + StatementName(m)
  }

  /** The count statement of a paged method: `count_` and the name, inside
      the namespace. */
  function CountStatementId(m: QueryMethod): (r: string)
    ensures |r| == |Namespace(m)| + 7 + |StatementName(m)|
    ensures r[..|Namespace(m)| + 7] == Namespace(m) + ".count_"
    ensures r[|Namespace(m)| + 7..] == StatementName(m)
  {
    Namespace(m) + ".count_" + StatementName(m)
  }

  /** The select that a collection delete runs first: `query_` and the name,
      inside the namespace. */
  function QueryForDeleteStatementId(m: QueryMethod): (r: string)
    ensures |r| == |Namespace(m)| + 7 + |StatementName(m)|
    ensures r[..|Namespace(m)| + 7] == Namespace(m) + ".query_"
    ensures r[|Namespace(m)| + 7..] == StatementName(m)
  {
    Namespace(m) + ".query_" + StatementName(m)
  }

  /** The three ids of a method are qualified by its namespace, end in its
      statement name, and are pairwise different. */
  lemma StatementIdsDistinct(m: QueryMethod)
    ensures var ns, name := Namespace(m), StatementName(m);
            StatementId(m)[..|ns| + 1] == ns + "." &&
            StatementId(m)[|StatementId(m)| - |name|..] == name &&
            CountStatementId(m)[|CountStatementId(m)| - |name|..] == name &&
            QueryForDeleteStatementId(m)[|QueryForDeleteStatementId(m)| - |name|..] == name
    ensures StatementId(m) != CountStatementId(m)
    ensures StatementId(m) != QueryForDeleteStatementId(m)
    ensures CountStatementId(m) != QueryForDeleteStatementId(m)
  {
    var ns := Namespace(m);
    var count, query := CountStatementId(m), QueryForDeleteStatementId(m);
    assert count[..|ns| + 7][|ns| + 1] == 'c';
    assert query[..|ns| + 7][|ns| + 1] == 'q';
  }

  /** The executions. */
  datatype Execution = InsertExecution | UpdateExecution | SingleEntityExecution | CollectionExecution
                     | DeleteExecution | PagedExecution | StreamExecution | SlicedExecution | ExistsExecution

  /** The execution named by an explicit statement type. */
  function ExplicitExecution(t: StatementType): (r: Option<Execution>)
    ensures r.None? <==> t == AUTO
  {
    match t
    case AUTO => None
    case INSERT => Some(InsertExecution)
    case UPDATE => Some(UpdateExecution)
    case SELECT_ONE => Some(SingleEntityExecution)
    case SELECT_LIST => Some(CollectionExecution)
    case DELETE => Some(DeleteExecution)
    case PAGE => Some(PagedExecution)
    case STREAM => Some(StreamExecution)
    case SLICE => Some(SlicedExecution)
  }

  /** The execution derived from the method's return type and name: stream,
      then slice, then page, then collection, then an exists projection, else
      a single entity. */
  function DerivedExecution(m: QueryMethod): (r: Execution)
    ensures r in {StreamExecution, SlicedExecution, PagedExecution, CollectionExecution, ExistsExecution, SingleEntityExecution}
    ensures r == StreamExecution <==> m.isStreamQuery
    ensures r == SlicedExecution <==> !m.isStreamQuery && m.isSliceQuery
    ensures r == PagedExecution <==> !m.isStreamQuery && !m.isSliceQuery && m.isPageQuery
    ensures r == CollectionExecution <==> !m.isStreamQuery && !m.isSliceQuery && !m.isPageQuery && m.isCollectionQuery
    ensures r == ExistsExecution <==>
              !m.isStreamQuery && !m.isSliceQuery && !m.isPageQuery && !m.isCollectionQuery && m.isExistsProjection
  {
    if m.isStreamQuery then StreamExecution
    else if m.isSliceQuery then SlicedExecution
    else if m.isPageQuery then PagedExecution
    else if m.isCollectionQuery then CollectionExecution
    else if m.isExistsProjection then ExistsExecution
    else SingleEntityExecution
  }

  /** getExecution: an explicit statement type other than AUTO decides;
      otherwise the execution is derived from the method. */
  function GetExecution(m: QueryMethod): (r: Execution)
    ensures m.annotation.Some? && m.annotation.value.statementType != AUTO ==>
              Some(r) == ExplicitExecution(m.annotation.value.statementType)
    ensures m.annotation.None? || m.annotation.value.statementType == AUTO ==> r == DerivedExecution(m)
  {
    if m.annotation.Some? && m.annotation.value.statementType != AUTO then
      ExplicitExecution(m.annotation.value.statementType).value
    else DerivedExecution(m)
  }

  /** Explicit statement types map one-to-one onto executions, and none of
      them is the exists execution. */
  lemma ExplicitExecutionOneToOne(s: StatementType, t: StatementType)
    requires s != AUTO && t != AUTO
    ensures ExplicitExecution(s) == ExplicitExecution(t) ==> s == t
    ensures ExplicitExecution(s) != Some(ExistsExecution)
  {
  }

  /** Insert, update and delete are only ever chosen by an explicit statement
      type: a method without one never writes. */
  lemma WritesNeedExplicitType(m: QueryMethod)
    requires GetExecution(m) in {InsertExecution, UpdateExecution, DeleteExecution}
    ensures m.annotation.Some? && m.annotation.value.statementType in {INSERT, UPDATE, DELETE}
  {
  }

  // ---------------------------------------------------------------------------
  // TupleConverter
  // ---------------------------------------------------------------------------

  /** A query result: a plain value, or a tuple of aliased elements (a value
      of None is null). */
  datatype Source<V> = Plain(v: V) | Tuple(elements: seq<(string, Option<V>)>)

  /** What convert returns: the source itself, the single element's value, or
      a read-only map view of the tuple. */
  datatype Converted<V> = Unchanged(source: Source<V>) | SingleValue(value: Option<V>) | MapView(view: TupleBackedMap<V>)

  /** convert: anything but a tuple passes through; a one-element tuple whose
      value is null or of the returned type yields that value; any other tuple
      becomes a map view. */
  function Convert<V>(source: Source<V>, isInstance: V -> bool): (r: Converted<V>)
    ensures source.Plain? ==> r == Unchanged(source)
    ensures r.SingleValue? <==>
              source.Tuple? && |source.elements| == 1 &&
              (source.elements[0].1.None? || isInstance(source.elements[0].1.value))
    ensures r.SingleValue? ==> r.value == source.elements[0].1
    ensures r.MapView? ==> source.Tuple? && r.view.elements == source.elements
    ensures source.Tuple? && !r.SingleValue? ==> r == MapView(TupleBackedMap(source.elements))
  {
    match source
    case Plain(_) => Unchanged(source)
    case Tuple(elements) =>
      if |elements| == 1 && (elements[0].1.None? || isInstance(elements[0].1.value)) then SingleValue(elements[0].1)
      else MapView(TupleBackedMap(elements))
  }

  const UnmodifiableMessage := "A TupleBackedMap cannot be modified."

  /** The index of the first element with the given alias. */
  function AliasIndex<V>(elements: seq<(string, Option<V>)>, alias: string): (r: Option<nat>)
    ensures r.Some? ==> r.value < |elements| && elements[r.value].0 == alias &&
                        forall k :: 0 <= k < r.value ==> elements[k].0 != alias
    ensures r.None? ==> forall k :: 0 <= k < |elements| ==> elements[k].0 != alias
  {
    if elements == [] then None
    else if elements[0].0 == alias then Some(0)
    else match AliasIndex(elements[1..], alias)
      case None => None
      case Some(k) => Some(k + 1)
  }

  /** A read-only map over a tuple, keyed by the element aliases. */
  datatype TupleBackedMap<V> = TupleBackedMap(elements: seq<(string, Option<V>)>)
  {
    function Size(): nat
    {
      |elements|
    }

    function KeySet(): (r: set<string>)
      ensures forall key :: key in r <==> exists k :: 0 <= k < |elements| && elements[k].0 == key
    {
      set k | 0 <= k < |elements| :: elements[k].0
    }

    /** containsKey: the tuple has an element with that alias, even a null
        one. */
    function ContainsKey(key: string): (r: bool)
      ensures r <==> key in KeySet()
    {
      AliasIndex(elements, key).Some?
    }

    /** get: the value of the element with that alias; null when there is
        none. */
    function Get(key: string): (r: Option<V>)
      ensures !ContainsKey(key) ==> r.None?
      ensures ContainsKey(key) ==> exists k :: 0 <= k < |elements| && elements[k] == (key, r)
    {
      match AliasIndex(elements, key)
      case None => None
      case Some(k) => elements[k].1
    }

    /** put, remove, putAll and clear: the view cannot be modified. */
    function Put(key: string, value: Option<V>): Result<Option<V>, Failure>
    {
      Err(UnsupportedOperation(UnmodifiableMessage))
    }

    function Remove(key: string): Result<Option<V>, Failure>
    {
      Err(UnsupportedOperation(UnmodifiableMessage))
    }

    function PutAll(entries: map<string, Option<V>>): Result<(), Failure>
    {
      Err(UnsupportedOperation(UnmodifiableMessage))
    }

    function Clear(): Result<(), Failure>
    {
      Err(UnsupportedOperation(UnmodifiableMessage))
    }
  }

  /** The view is read-only: put, remove, putAll and clear all fail with the
      same unsupported-operation error, whatever they are given. */
  lemma MapViewRejectsWrites<V>(view: TupleBackedMap<V>, key: string, value: Option<V>, entries: map<string, Option<V>>)
    ensures view.Put(key, value) == Err(UnsupportedOperation(UnmodifiableMessage))
    ensures view.Remove(key) == Err(UnsupportedOperation(UnmodifiableMessage))
    ensures view.PutAll(entries) == Err(UnsupportedOperation(UnmodifiableMessage))
    ensures view.Clear() == Err(UnsupportedOperation(UnmodifiableMessage))
  {
  }

  /** A map view reads back what the tuple holds: every alias is a key, the
      first element with an alias gives its value, and it has as many entries
      as the tuple has elements. */
  lemma {:induction false} MapViewReadsTuple<V>(source: seq<(string, Option<V>)>, isInstance: V -> bool, k: nat)
    requires k < |source|
    requires forall i :: 0 <= i < k ==> source[i].0 != source[k].0
    requires Convert(Tuple(source), isInstance).MapView?
    ensures var view := Convert(Tuple(source), isInstance).view;
            view.ContainsKey(source[k].0) && view.Get(source[k].0) == source[k].1 && view.Size() == |source|
  {
    var view := Convert(Tuple(source), isInstance).view;
    var idx := AliasIndex(source, source[k].0);
    assert idx == Some(k);
    assert source[k].0 in view.KeySet();
  }
}
