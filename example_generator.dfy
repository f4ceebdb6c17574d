/** ExampleGenerator: the `findByExample` condition of one property, a run of
    MyBatis `<if>` fragments each guarded by a test on the `_example` parameter
    map entry of that property (an ExampleInfo). */
module ExampleGenerator {
  import opened Common
  import opened Mapping
  import opened Dialects
  import opened MapperGenerator

  /** The probe value stored in an ExampleInfo: a (possibly upper-cased)
      string, or a value of any other type. */
  datatype ExampleValue = Text(text: string) | NonText(repr: string)

  /** ExampleInfo: value (null = None), matcher name (null = None),
      ignoreCase and includeNull flags. */
  datatype ExampleInfo = ExampleInfo(value: Option<ExampleValue>, matcher: Option<string>, ignoreCase: bool, includeNull: bool)

  /** What a fragment's `<if test=...>` checks besides `_example.name != null`:
      the null check, or a non-null value with a given matcher and, for
      string properties, a given ignoreCase polarity. */
  datatype Guard = NullCheck | Match(matcher: string, ignoreCase: Option<bool>)

  /** The OGNL test of a guard, evaluated on the map entry of the property
      (None when the map has no entry for it). */
  predicate GuardHolds(g: Guard, entry: Option<ExampleInfo>)
  {
    entry.Some? &&
    match g
    case NullCheck => entry.value.value.None? && entry.value.includeNull
    case Match(m, ic) =>
      entry.value.value.Some? && entry.value.matcher == Some(m) &&
      (ic.None? || ic.value == entry.value.ignoreCase)
  }

  /** The text of the test attribute; every test starts by requiring an
      entry for the property. */
  function GuardTest(name: string, g: Guard): (r: string)
    ensures var head := "_example." + name + " != null and "; |head| <= |r| && r[..|head|] == head
  {
    var x := "_example." + name;
    var rest := match g
      case NullCheck => x + ".value==null  and " + x + ".includeNull"
      case Match(m, ic) =>
        x + ".value!=null  and " + x + ".matcher=='" + m + "'" +
        (match ic
         case None => " "
         case Some(true) => " and " + x + ".ignoreCase "
         case Some(false) => " and !" + x + ".ignoreCase ");
    var head := x + " != null and ";
    assert (head + rest)[..|head|] == head;
    head + rest
  }

  /** One fragment: its guard, whether the column is upper-cased, and the
      part type, ignore-case mode and parameter array handed to the
      condition builders. */
  datatype Fragment = Fragment(guard: Guard, upperColumn: bool, partType: PartType, ignoreCase: IgnoreCaseType, withValue: bool)

  /** The fragments generate emits for a property, in order: for a String
      property the null check and then EXACT, CONTAINING, STARTING, ENDING,
      each with and without ignoreCase; otherwise the null check and EXACT. */
  function Fragments(p: Property): seq<Fragment>
  {
    if p.actualType == StringType then
      [ Fragment(NullCheck, false, IS_NULL, NEVER, false),
        Fragment(Match("EXACT", Some(true)), true, SIMPLE_PROPERTY, WHEN_POSSIBLE, true),
        Fragment(Match("EXACT", Some(false)), false, SIMPLE_PROPERTY, NEVER, true),
        Fragment(Match("CONTAINING", Some(true)), true, CONTAINING, WHEN_POSSIBLE, true),
        Fragment(Match("CONTAINING", Some(false)), false, CONTAINING, NEVER, true),
        Fragment(Match("STARTING", Some(true)), true, STARTING_WITH, WHEN_POSSIBLE, true),
        Fragment(Match("STARTING", Some(false)), false, STARTING_WITH, NEVER, true),
        Fragment(Match("ENDING", Some(true)), true, ENDING_WITH, WHEN_POSSIBLE, true),
        Fragment(Match("ENDING", Some(false)), false, ENDING_WITH, NEVER, true) ]
    else
      [ Fragment(NullCheck, false, IS_NULL, NEVER, false),
        Fragment(Match("EXACT", None), false, SIMPLE_PROPERTY, NEVER, true) ]
  }

  /** The parameter array: `{"_example.name.value"}`, or null for the null check. */
  function FragmentParameters(f: Fragment, name: string): Option<seq<string>>
  {
    if f.withValue then Some(["_example." + name + ".value"]) else None
  }

  /** The value side of a fragment; the builders never fail on the table. */
  function FragmentClause(f: Fragment, name: string): string
  {
    match ConditionClause(f.partType, f.ignoreCase, FragmentParameters(f, name))
    case Ok(c) => c
    case Err(_) => ""
  }

  /** The qualified column `"alias".column`, upper-cased when asked. */
  function QualifiedColumn(kind: DialectKind, e: Entity, p: Property, upper: bool): string
  {
    var column := Quota(kind, e.entityName) + "." + WrapColumnName(kind, ColumnName(p));
    if upper then "upper(" + column + ")" else column
  }

  function FragmentText(kind: DialectKind, e: Entity, p: Property, f: Fragment): string
  {
    "<if test=\"" + GuardTest(p.name, f.guard) + "\">" +
    " and " + QualifiedColumn(kind, e, p, f.upperColumn) +
    ConditionOperator(f.partType) + FragmentClause(f, p.name) + "</if>"
  }

  function FragmentTexts(kind: DialectKind, e: Entity, p: Property, fs: seq<Fragment>): (r: seq<string>)
    ensures |r| == |fs|
    ensures forall k :: 0 <= k < |fs| ==> r[k] == FragmentText(kind, e, p, fs[k])
  {
    seq(|fs|, k requires 0 <= k < |fs| => FragmentText(kind, e, p, fs[k]))
  }

  /** generate: the fragments of the property, concatenated. */
  function Generate(kind: DialectKind, e: Entity, p: Property): string
  {
    Concat(FragmentTexts(kind, e, p, Fragments(p)))
  }

  /** Nine fragments for a String property, two for any other; the first is
      always the null check. */
  lemma FragmentCounts(p: Property)
    ensures p.actualType == StringType ==> |Fragments(p)| == 9
    ensures p.actualType != StringType ==> |Fragments(p)| == 2
    ensures Fragments(p)[0].guard == NullCheck
    ensures forall k :: 1 <= k < |Fragments(p)| ==> Fragments(p)[k].guard.Match?
    ensures p.actualType != StringType ==> Fragments(p)[1].guard == Match("EXACT", None)
  {
  }

  /** The condition builders succeed on every fragment of the table, so the
      clause is never the fallback. */
  lemma ClausesSucceed(p: Property, f: Fragment)
    requires f in Fragments(p)
    ensures ConditionClause(f.partType, f.ignoreCase, FragmentParameters(f, p.name)).Ok?
  {
  }

  /** The null check is the column followed by the empty operator and " is null". */
  lemma NullCheckText(p: Property)
    ensures ConditionOperator(Fragments(p)[0].partType) == ""
    ensures FragmentClause(Fragments(p)[0], p.name) == " is null"
  {
  }

  /** Ignore-case symmetry: a fragment upper-cases the column exactly when its
      guard requires ignoreCase, and exactly then it passes WHEN_POSSIBLE, so
      the value is upper-cased too; otherwise neither side is. */
  lemma IgnoreCaseSymmetry(p: Property, f: Fragment)
    requires f in Fragments(p)
    ensures f.upperColumn <==> (f.guard.Match? && f.guard.ignoreCase == Some(true))
    ensures f.upperColumn <==> UpperCased(f.ignoreCase)
  {
  }

  /** The entries generate is written for: a null value kept because nulls are
      included, or a value with one of the matchers the property's fragments
      test for. */
  predicate Expected(p: Property, info: ExampleInfo)
  {
    if info.value.None? then info.includeNull
    else if p.actualType == StringType then
      info.matcher.Some? && info.matcher.value in {"EXACT", "CONTAINING", "STARTING", "ENDING"}
    else info.matcher == Some("EXACT")
  }

  /** The number of fragments whose guard holds. */
  function ActiveCount(fs: seq<Fragment>, entry: Option<ExampleInfo>): nat
  {
    if fs == [] then 0
    else (if GuardHolds(fs[0].guard, entry) then 1 else 0) + ActiveCount(fs[1..], entry)
  }

  /** Pairwise exclusive guards activate at most one fragment, and exactly
      one when some guard holds. */
  lemma {:induction false} ExclusiveCount(fs: seq<Fragment>, entry: Option<ExampleInfo>)
    requires forall i, j :: 0 <= i < j < |fs| ==> !(GuardHolds(fs[i].guard, entry) && GuardHolds(fs[j].guard, entry))
    ensures ActiveCount(fs, entry) <= 1
    ensures (exists i :: 0 <= i < |fs| && GuardHolds(fs[i].guard, entry)) <==> ActiveCount(fs, entry) == 1
  {
    if fs != [] {
      var tail := fs[1..];
      assert forall i :: 0 <= i < |tail| ==> tail[i] == fs[i + 1];
      ExclusiveCount(tail, entry);
      if GuardHolds(fs[0].guard, entry) {
        assert forall i :: 0 <= i < |tail| ==> !GuardHolds(tail[i].guard, entry);
      } else if ActiveCount(fs, entry) == 1 {
        var i :| 0 <= i < |tail| && GuardHolds(tail[i].guard, entry);
        assert GuardHolds(fs[i + 1].guard, entry);
      }
    }
  }

  /** The guards are mutually exclusive: at most one fragment is active for any
      entry, none when the property has no entry, and exactly one for every
      expected entry. */
  lemma GuardsExclusive(p: Property, entry: Option<ExampleInfo>)
    ensures ActiveCount(Fragments(p), entry) <= 1
    ensures entry.None? ==> ActiveCount(Fragments(p), entry) == 0
    ensures entry.Some? && Expected(p, entry.value) ==> ActiveCount(Fragments(p), entry) == 1
  {
    var fs := Fragments(p);
    assert forall i, j :: 0 <= i < j < |fs| ==> fs[i].guard != fs[j].guard;
    ExclusiveCount(fs, entry);
    if entry.Some? && Expected(p, entry.value) {
      var info := entry.value;
      if info.value.None? {
        assert GuardHolds(fs[0].guard, entry);
      } else if p.actualType != StringType {
        assert GuardHolds(fs[1].guard, entry);
      } else {
        var m := info.matcher.value;
        var k := (if m == "EXACT" then 1 else if m == "CONTAINING" then 3 else if m == "STARTING" then 5 else 7)
                 + (if info.ignoreCase then 0 else 1);
        assert GuardHolds(fs[k].guard, entry);
      }
    }
  }
}
