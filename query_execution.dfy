/** MybatisQueryExecution: how a derived or annotated repository query is run
    against the SQL session — the parameter map handed to the statement, the
    paging and slicing arithmetic, the count decision, and the post-processing
    of the result. */
module QueryExecution {
  import opened Common

  const IntegerMaxValue := 0x7fff_ffff

  /** A Java `int` result: the low 32 bits, read as a signed number. */
  function Int32(x: int): (r: int)
    ensures -0x8000_0000 <= r <= IntegerMaxValue
    ensures -0x8000_0000 <= x <= IntegerMaxValue ==> r == x
  {
    (x + 0x8000_0000) % 0x1_0000_0000 - 0x8000_0000
  }

  // ---------------------------------------------------------------------------
  // The parameter map
  // ---------------------------------------------------------------------------

  /** A bindable method parameter: its `@Param` name, if any, and its position
      in the argument array. */
  datatype Param = Param(name: Option<string>, index: nat)

  /** What a parameter-map entry is bound to: an argument of the call, the
      pager's own sort, or a number computed from the pager. */
  datatype Bound = Argument(index: nat) | PagerSort | Number(n: int)

  /** The key of the k-th bindable parameter: its name, or "p" followed by k,
      counting bindable parameters only. */
  function ParamKey(p: Param, k: nat): string
  {
    match p.name
    case Some(n) => n
    case None => "p" + NatToString(k)
  }

  /** The bindable parameters put in order, a later key overwriting an
      earlier one. */
  function ParameterMap(ps: seq<Param>): map<string, Bound>
    decreases |ps|
  {
    if ps == [] then map[]
    else
      var k := |ps| - 1;
      ParameterMap(ps[..k])[ParamKey(ps[k], k) := Argument(ps[k].index)]
  }

  /** The loop that fills the parameter map, counting the parameters as it
      goes. */
  method BindParameters(ps: seq<Param>) returns (m: map<string, Bound>)
    ensures m == ParameterMap(ps)
  {
    m := map[];
    var c := 0;
    while c < |ps|
      invariant 0 <= c <= |ps|
      invariant m == ParameterMap(ps[..c])
    {
      assert ps[..c + 1][..c] == ps[..c];
      m := m[ParamKey(ps[c], c) := Argument(ps[c].index)];
      c := c + 1;
    }
    assert ps[..c] == ps;
  }

  /** No two bindable parameters share a key. */
  predicate DistinctKeys(ps: seq<Param>)
  {
    forall i, j :: 0 <= i < j < |ps| ==> ParamKey(ps[i], i) != ParamKey(ps[j], j)
  }

  /** The map binds exactly the parameters' keys. */
  lemma {:induction false} ParameterMapKeys(ps: seq<Param>)
    ensures forall key :: key in ParameterMap(ps) <==> exists k :: 0 <= k < |ps| && ParamKey(ps[k], k) == key
    decreases |ps|
  {
    if ps != [] {
      var n := |ps| - 1;
      var init := ps[..n];
      ParameterMapKeys(init);
      forall key | key in ParameterMap(ps)
        ensures exists k :: 0 <= k < |ps| && ParamKey(ps[k], k) == key
      {
        if key != ParamKey(ps[n], n) {
          assert key in ParameterMap(init);
          var k :| 0 <= k < n && ParamKey(init[k], k) == key;
          assert ParamKey(ps[k], k) == key;
        }
      }
      forall k | 0 <= k < n
        ensures ParamKey(ps[k], k) in ParameterMap(ps)
      {
        assert ParamKey(init[k], k) in ParameterMap(init);
      }
    }
  }

  /** With distinct keys, each parameter's key is bound to its own argument. */
  lemma {:induction false} ParameterMapBindsEach(ps: seq<Param>)
    requires DistinctKeys(ps)
    ensures forall k :: 0 <= k < |ps| ==>
              ParamKey(ps[k], k) in ParameterMap(ps) && ParameterMap(ps)[ParamKey(ps[k], k)] == Argument(ps[k].index)
    decreases |ps|
  {
    if ps != [] {
      var n := |ps| - 1;
      var init := ps[..n];
      assert DistinctKeys(init) by {
        forall i, j | 0 <= i < j < n ensures ParamKey(init[i], i) != ParamKey(init[j], j) {
          assert init[i] == ps[i] && init[j] == ps[j];
        }
      }
      ParameterMapBindsEach(init);
      forall k | 0 <= k < n
        ensures ParameterMap(ps)[ParamKey(ps[k], k)] == Argument(ps[k].index)
      {
        assert init[k] == ps[k];
        assert ParamKey(ps[k], k) != ParamKey(ps[n], n);
      }
    }
  }

  /** Unnamed parameters never collide with each other: "p"+k differs for
      different k. */
  lemma UnnamedKeysDistinct(ps: seq<Param>)
    requires forall k :: 0 <= k < |ps| ==> ps[k].name.None?
    ensures DistinctKeys(ps)
  {
    forall i, j | 0 <= i < j < |ps|
      ensures ParamKey(ps[i], i) != ParamKey(ps[j], j)
    {
      var a, b := NatToString(i), NatToString(j);
      if "p" + a == "p" + b {
        assert a == ("p" + a)[1..];
        assert b == ("p" + b)[1..];
        NatToStringInjective(i, j);
      }
    }
  }

  /** The bindable parameters plus, when the method has a Sort parameter,
      `_sorts` bound to it. */
  function WithSorts(ps: seq<Param>, sortIndex: Option<nat>): map<string, Bound>
  {
    var m := ParameterMap(ps);
    if sortIndex.Some? then m["_sorts" := Argument(sortIndex.value)] else m
  }

  /** The executions that run without a parameter map when the call has no
      arguments, and with the bindable parameters otherwise; collections,
      streams and exists also bind the Sort parameter. */
  datatype ListingKind = CollectionKind | StreamKind | ExistsKind | SingleKind | InsertKind | UpdateKind

  function ListingParameters(kind: ListingKind, argCount: nat, ps: seq<Param>, sortIndex: Option<nat>): (r: Option<map<string, Bound>>)
    ensures r.None? <==> argCount == 0
    ensures r.Some? && kind in {CollectionKind, StreamKind, ExistsKind} ==> r.value == WithSorts(ps, sortIndex)
    ensures r.Some? && kind in {SingleKind, InsertKind, UpdateKind} ==> r.value == ParameterMap(ps)
  {
    if argCount == 0 then None
    else if kind in {CollectionKind, StreamKind, ExistsKind} then Some(WithSorts(ps, sortIndex))
    else Some(ParameterMap(ps))
  }

  /** ExistsExecution's answer: true iff the statement returned some row. */
  function ExistsResult<T>(rows: seq<T>): (r: bool)
    ensures r <==> rows != []
  {
    |rows| > 0
  }

  /** What ExistsExecution returns as written: the rows themselves for a call
      without arguments, the existence flag otherwise. */
  datatype ExistsValue<T> = RowList(rows: seq<T>) | Flag(found: bool)

  function ExistsExecutionAsWritten<T>(argCount: nat, rows: seq<T>): (r: ExistsValue<T>)
    ensures r.RowList? <==> argCount == 0
    ensures r.RowList? ==> r.rows == rows
    ensures r.Flag? ==> (r.found <==> rows != [])
  {
    if argCount == 0 then RowList(rows) else Flag(ExistsResult(rows))
  }

  /** With arguments the execution answers the existence question; without
      them it hands back the row list where a boolean is declared. */
  lemma ExistsAsWrittenAgreesWithArguments<T>(argCount: nat, rows: seq<T>)
    ensures argCount > 0 ==> ExistsExecutionAsWritten(argCount, rows) == Flag(ExistsResult(rows))
    ensures argCount == 0 ==> !ExistsExecutionAsWritten(argCount, rows).Flag?
  {
  }

  /** A method `existsBy...()` without arguments over a one-row result: as
      written it returns the one-element list, where the answer is true. */
  lemma ExistsWithoutArgumentsReturnsRows()
    ensures ExistsExecutionAsWritten(0, [7]) == RowList([7])
    ensures ExistsResult([7])
  {
  }

  // ---------------------------------------------------------------------------
  // Paging and slicing
  // ---------------------------------------------------------------------------

  /** A page request: zero-based page number, page size and whether its sort
      is sorted. PageRequest itself refuses a negative page and a size below
      one. */
  datatype Pager = Pager(pageNumber: nat, pageSize: nat, sorted: bool)

  predicate ValidPager(p: Pager)
  {
    p.pageSize >= 1
  }

  function Offset(p: Pager): nat
  {
    p.pageNumber * p.pageSize
  }

  predicate HasPrevious(p: Pager)
  {
    p.pageNumber > 0
  }

  /** The paging entries: a request without a pager reads everything. */
  function PagingEntries(m: map<string, Bound>, pager: Option<Pager>, pageSizeBound: int -> int): map<string, Bound>
  {
    match pager
    case None => m["offset" := Number(0)]["pageSize" := Number(IntegerMaxValue)]["offsetEnd" := Number(IntegerMaxValue)]
    case Some(p) =>
      m["offset" := Number(Offset(p))]["pageSize" := Number(pageSizeBound(p.pageSize))]
       ["offsetEnd" := Number(Offset(p) + p.pageSize)]
  }

  /** `_sorts` for a paged or sliced query: the Sort parameter when there is
      one, else the pager's sort when it is sorted. */
  function PagedSorts(ps: seq<Param>, sortIndex: Option<nat>, pager: Option<Pager>): map<string, Bound>
  {
    if sortIndex.Some? then WithSorts(ps, sortIndex)
    else if pager.Some? && pager.value.sorted then ParameterMap(ps)["_sorts" := PagerSort]
    else ParameterMap(ps)
  }

  /** PagedExecution's parameter map. */
  function PagedParameters(ps: seq<Param>, sortIndex: Option<nat>, pager: Option<Pager>): (r: map<string, Bound>)
    ensures {"offset", "pageSize", "offsetEnd"} <= r.Keys
    ensures sortIndex.Some? || (pager.Some? && pager.value.sorted) ==> "_sorts" in r
    ensures ParameterMap(ps).Keys <= r.Keys
    ensures pager.None? ==>
              r["offset"] == Number(0) && r["pageSize"] == Number(IntegerMaxValue) && r["offsetEnd"] == Number(IntegerMaxValue)
    ensures pager.Some? ==>
              r["offset"] == Number(Offset(pager.value)) && r["pageSize"] == Number(pager.value.pageSize) &&
              r["offsetEnd"] == Number(Offset(pager.value) + pager.value.pageSize)
    ensures sortIndex.Some? ==> r["_sorts"] == Argument(sortIndex.value)
    ensures sortIndex.None? && pager.Some? && pager.value.sorted ==> r["_sorts"] == PagerSort
    ensures forall k :: k in ParameterMap(ps) && k !in {"_sorts", "offset", "pageSize", "offsetEnd"} ==> r[k] == ParameterMap(ps)[k]
  {
    PagingEntries(PagedSorts(ps, sortIndex, pager), pager, n => n)
  }

  /** SlicedExecution's parameter map: one row more than the page is asked
      for (in Java `int` arithmetic); a null pager is dereferenced. */
  function SlicedParameters(ps: seq<Param>, sortIndex: Option<nat>, pager: Option<Pager>): (r: Result<map<string, Bound>, Failure>)
    ensures r.Err? <==> pager.None?
    ensures r.Ok? ==> {"offset", "pageSize", "offsetEnd"} <= r.value.Keys
    ensures r.Ok? ==>
              r.value["offset"] == Number(Offset(pager.value)) &&
              r.value["pageSize"] == Number(Int32(pager.value.pageSize + 1)) &&
              r.value["offsetEnd"] == Number(Offset(pager.value) + pager.value.pageSize)
  {
    if pager.None? then Err(NullPointer)
    else Ok(PagingEntries(PagedSorts(ps, sortIndex, pager), pager, n => Int32(n + 1)))
  }

  /** The window of consecutive pages tiles the rows: a page ends where the
      next one starts, and each spans exactly the page size. */
  lemma PagesTile(ps: seq<Param>, sortIndex: Option<nat>, p: Pager)
    ensures var here := PagedParameters(ps, sortIndex, Some(p));
            var next := PagedParameters(ps, sortIndex, Some(p.(pageNumber := p.pageNumber + 1)));
            here["offsetEnd"] == next["offset"] &&
            here["offsetEnd"].n - here["offset"].n == p.pageSize
  {
    assert Offset(p.(pageNumber := p.pageNumber + 1)) == Offset(p) + p.pageSize;
  }

  /** The rows a limit/offset statement returns from a result of `n` rows:
      up to `limit` rows starting at `offset`. */
  function Window<T>(table: seq<T>, offset: nat, limit: nat): (r: seq<T>)
    ensures |r| <= limit
    ensures offset + |r| <= |table| || r == []
  {
    if offset >= |table| then []
    else if offset + limit <= |table| then table[offset..offset + limit]
    else table[offset..]
  }

  /** The slice built from the over-fetched rows: more rows than the page size
      means there is a next slice, and the content is cut to the page size. */
  function SliceOf<T>(rows: seq<T>, pageSize: nat): (r: (seq<T>, bool))
    ensures r.1 <==> |rows| > pageSize
    ensures r.0 <= rows
    ensures |r.0| == if r.1 then pageSize else |rows|
  {
    var hasNext := |rows| > pageSize;
    (if hasNext then rows[..pageSize] else rows, hasNext)
  }

  /** Fetching one row more than the page decides hasNext exactly: the slice
      holds the page's rows, and hasNext says whether any row follows them. */
  lemma SliceIsExact<T>(table: seq<T>, p: Pager)
    requires p.pageSize < IntegerMaxValue
    ensures var s := SliceOf(Window(table, Offset(p), Int32(p.pageSize + 1)), p.pageSize);
            s.0 == Window(table, Offset(p), p.pageSize) &&
            (s.1 <==> Offset(p) + p.pageSize < |table|)
  {
  }

  /** calculateTotal as written: on a later page the rows before it are
      counted as `(pageNumber - 1) * pageSize`, in `int` arithmetic. */
  function CalculateTotalAsWritten(p: Pager, size: nat): int
  {
    if HasPrevious(p) then
      if size == 0 || size == p.pageSize then -1
      else Int32(Int32(Int32(p.pageNumber - 1) * p.pageSize) + size)
    else if size < p.pageSize then size
    else -1
  }

  /** calculateTotal counting the rows before the page as its offset; -1 when
      the rows seen do not determine the total. */
  function CalculateTotal(p: Pager, size: nat): int
  {
    if HasPrevious(p) then
      if size == 0 || size == p.pageSize then -1
      else Offset(p) + size
    else if size < p.pageSize then size
    else -1
  }

  /** The total is the number of rows whenever it is known: a page that is
      neither empty nor full (or a short first page) ends the result. When it
      is not known a count query is needed. */
  lemma CalculateTotalIsExact<T>(table: seq<T>, p: Pager)
    requires ValidPager(p)
    ensures var t := CalculateTotal(p, |Window(table, Offset(p), p.pageSize)|);
            (t >= 0 ==> t == |table|) &&
            (t < 0 ==> |Window(table, Offset(p), p.pageSize)| == p.pageSize || (HasPrevious(p) && Offset(p) >= |table|))
  {
  }

  /** As written, a later page's total is one page short whenever it is
      computed. */
  lemma AsWrittenIsOnePageShort(p: Pager, size: nat)
    requires ValidPager(p) && HasPrevious(p) && 0 < size && size != p.pageSize
    requires Offset(p) + size <= IntegerMaxValue
    ensures CalculateTotalAsWritten(p, size) == CalculateTotal(p, size) - p.pageSize
  {
    var pn1: nat := p.pageNumber - 1;
    var before := pn1 * p.pageSize;
    MultiplySuccessor(pn1, p.pageSize);
    assert Offset(p) == before + p.pageSize;
    assert Int32(pn1) == pn1;
    assert Int32(before) == before;
    assert Int32(before + size) == before + size;
  }

  lemma MultiplySuccessor(a: nat, b: nat)
    ensures (a + 1) * b == a * b + b
  {
  }

  /** The second page of ten, with three rows on it: thirteen rows in all,
      but calculateTotal as written reports three. */
  lemma AsWrittenUndercounts()
    ensures var table := seq(13, k => k);
            var p := Pager(1, 10, false);
            var size := |Window(table, Offset(p), p.pageSize)|;
            size == 3 && CalculateTotalAsWritten(p, size) == 3 && CalculateTotal(p, size) == 13
  {
    var table := seq(13, k => k);
    assert Window(table, 10, 10) == table[10..];
  }

  /** Where the page's total comes from. */
  datatype Total = Computed(total: int) | CountStatement | NativeCount | WholeResult

  /** The total PagedExecution ends with, from the value calculateTotal
      returned: that value when it is known (non-negative); otherwise the
      `count_` statement when one is registered, else the native count rewrite
      for a native statement, else the negative value itself. */
  function TotalFrom(t: int, countStatementExists: bool, native: bool): (r: Total)
    ensures t >= 0 ==> r == Computed(t)
    ensures r == CountStatement <==> t < 0 && countStatementExists
    ensures r == NativeCount <==> t < 0 && !countStatementExists && native
    ensures r.Computed? ==> r.total == t
    ensures !r.WholeResult?
  {
    if t >= 0 then Computed(t)
    else if countStatementExists then CountStatement
    else if native then NativeCount
    else Computed(t)
  }

  /** PagedExecution's total, with calculateTotal as written: the whole result
      without a pager; otherwise the as-written value when it is not negative,
      and a count query (or the negative value) when it is, including when the
      `int` arithmetic wraps below zero. */
  function PagedTotal(pager: Option<Pager>, size: nat, countStatementExists: bool, native: bool): (r: Total)
    ensures r == WholeResult <==> pager.None?
    ensures pager.Some? && CalculateTotalAsWritten(pager.value, size) >= 0 ==>
              r == Computed(CalculateTotalAsWritten(pager.value, size))
    ensures r == CountStatement <==> pager.Some? && CalculateTotalAsWritten(pager.value, size) < 0 && countStatementExists
    ensures r == NativeCount <==>
              pager.Some? && CalculateTotalAsWritten(pager.value, size) < 0 && !countStatementExists && native
    ensures r.Computed? ==> pager.Some? && r.total == CalculateTotalAsWritten(pager.value, size)
  {
    if pager.None? then WholeResult
    else TotalFrom(CalculateTotalAsWritten(pager.value, size), countStatementExists, native)
  }

  /** PagedExecution's total with the offset-based calculateTotal. */
  function PagedTotalIntended(pager: Option<Pager>, size: nat, countStatementExists: bool, native: bool): (r: Total)
    ensures r == WholeResult <==> pager.None?
    ensures r.Computed? ==> r.total >= -1
  {
    if pager.None? then WholeResult
    else TotalFrom(CalculateTotal(pager.value, size), countStatementExists, native)
  }

  /** On the first page the two calculations coincide, so the total is the
      same either way. */
  lemma PagedTotalsAgreeOnFirstPage(p: Pager, size: nat, countStatementExists: bool, native: bool)
    requires !HasPrevious(p)
    ensures PagedTotal(Some(p), size, countStatementExists, native) ==
            PagedTotalIntended(Some(p), size, countStatementExists, native)
  {
  }

  /** With the offset-based calculation a computed, non-negative total is the
      number of rows, and the count query runs only when the page is full or
      lies past the end. */
  lemma PagedTotalIntendedIsExact<T>(table: seq<T>, p: Pager, countStatementExists: bool, native: bool)
    requires ValidPager(p)
    ensures var size := |Window(table, Offset(p), p.pageSize)|;
            var r := PagedTotalIntended(Some(p), size, countStatementExists, native);
            (r.Computed? && r.total >= 0 ==> r.total == |table|) &&
            (!r.Computed? || r.total < 0 ==> size == p.pageSize || (HasPrevious(p) && Offset(p) >= |table|))
  {
    CalculateTotalIsExact(table, p);
  }

  /** The total a `PageImpl` built with a pager reports (Spring Data Commons,
      outside this model): for a non-empty page that reaches past the given
      total, the total is re-derived as the offset plus the page's size. */
  function PageImplTotal(p: Pager, contentSize: nat, total: int): int
  {
    if contentSize > 0 && Offset(p) + p.pageSize > total then Offset(p) + contentSize else total
  }

  /** The page a caller receives still reports the right total: the
      as-written value is one page short, which is below the page's end, so
      PageImpl replaces it by the offset plus the rows on the page. */
  lemma PageImplMasksUndercount(p: Pager, size: nat)
    requires ValidPager(p) && HasPrevious(p) && 0 < size < p.pageSize
    requires Offset(p) + size <= IntegerMaxValue
    ensures PageImplTotal(p, size, CalculateTotalAsWritten(p, size)) == CalculateTotal(p, size)
  {
    AsWrittenIsOnePageShort(p, size);
  }

  // ---------------------------------------------------------------------------
  // Results
  // ---------------------------------------------------------------------------

  /** What doExecute produced: NoResultException, or a value (None = null). */
  datatype Outcome<R> = NoResult | Returned(value: Option<R>)

  /** execute: null on NoResultException or a null result; the result itself
      when the method returns void or a supertype of it, or when the
      conversion service cannot convert it; the conversion otherwise. */
  function Execute<R>(outcome: Outcome<R>, voidOrAssignable: bool, canConvert: bool, convert: R -> R): (r: Option<R>)
    ensures r.None? <==> outcome == NoResult || outcome.value.None?
    ensures r.Some? && (voidOrAssignable || !canConvert) ==> r == outcome.value
    ensures r.Some? && !voidOrAssignable && canConvert ==> r == Some(convert(outcome.value.value))
  {
    match outcome
    case NoResult => None
    case Returned(None) => None
    case Returned(Some(v)) =>
      if voidOrAssignable || !canConvert then Some(v) else Some(convert(v))
  }

  /** A request DeleteExecution sends: the rows selected for deletion, or the
      deletion itself. */
  datatype DeleteRequest = SelectForDelete(statementId: string) | Delete(statementId: string)

  datatype DeleteResult<E> = DeletedRows(rows: int) | DeletedEntities(entities: seq<E>)

  /** DeleteExecution's requests: a collection method first selects what it
      is about to delete. */
  function DeleteRequests(collectionQuery: bool, queryForDeleteId: string, statementId: string): (r: seq<DeleteRequest>)
    ensures |r| >= 1 && r[|r| - 1] == Delete(statementId)
    ensures |r| == 2 <==> collectionQuery
    ensures collectionQuery ==> r[0] == SelectForDelete(queryForDeleteId)
  {
    if collectionQuery then [SelectForDelete(queryForDeleteId), Delete(statementId)] else [Delete(statementId)]
  }

  /** DeleteExecution's result: the row count for a non-collection method, the
      entities selected before the delete for a collection method. */
  function DeleteOutcome<E>(collectionQuery: bool, selected: seq<E>, rows: int): (r: DeleteResult<E>)
    ensures r.DeletedRows? <==> !collectionQuery
    ensures r.DeletedRows? ==> r.rows == rows
    ensures r.DeletedEntities? ==> r.entities == selected
  {
    if collectionQuery then DeletedEntities(selected) else DeletedRows(rows)
  }
}
