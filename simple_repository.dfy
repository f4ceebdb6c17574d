/** SimpleMybatisRepository: the CRUD repository behind every generated
    mapper. Modelled here: the translation of a query-by-example probe into the
    `_example` map that the ExampleGenerator fragments test, the row check of
    the updates, the id assignment of `save`, and which statement each
    operation hands to the SQL session. */
module SimpleRepository {
  import opened Common
  import opened Mapping
  import opened ExampleGenerator
  import opened IdentityFactory

  // ---------------------------------------------------------------------------
  // Query by example
  // ---------------------------------------------------------------------------

  datatype StringMatcher = DEFAULT | EXACT | STARTING | ENDING | CONTAINING | REGEX
  datatype NullHandler = INCLUDE | IGNORE

  /** The example matcher as its accessor answers for a path: per-path
      specifiers override the matcher-wide ignore-case flag and string
      matcher. */
  datatype ExampleMatcher = ExampleMatcher(
    nullHandler: NullHandler,
    ignoredPaths: set<string>,
    ignoreCaseSpecifiers: map<string, bool>,
    defaultIgnoreCase: bool,
    stringMatcherSpecifiers: map<string, StringMatcher>,
    defaultStringMatcher: StringMatcher)

  predicate IsIgnoreCaseForPath(m: ExampleMatcher, path: string)
  {
    if path in m.ignoreCaseSpecifiers then m.ignoreCaseSpecifiers[path] else m.defaultIgnoreCase
  }

  function StringMatcherForPath(m: ExampleMatcher, path: string): StringMatcher
  {
    if path in m.stringMatcherSpecifiers then m.stringMatcherSpecifiers[path] else m.defaultStringMatcher
  }

  function StringMatcherName(sm: StringMatcher): string
  {
    match sm
    case DEFAULT => "DEFAULT"
    case EXACT => "EXACT"
    case STARTING => "STARTING"
    case ENDING => "ENDING"
    case CONTAINING => "CONTAINING"
    case REGEX => "REGEX"
  }

  /** The matcher name stored for a string value: DEFAULT and EXACT become
      "EXACT", CONTAINING, STARTING and ENDING keep their names, anything else
      is refused. */
  function StoredMatcher(sm: StringMatcher): (r: Result<string, Failure>)
    ensures r.Ok? <==> sm != REGEX
    ensures r.Ok? ==> r.value in {"EXACT", "CONTAINING", "STARTING", "ENDING"}
    ensures sm in {EXACT, CONTAINING, STARTING, ENDING} ==> r == Ok(StringMatcherName(sm))
    ensures r.Err? ==> r.error == IllegalArgument("Unsupported StringMatcher " + StringMatcherName(sm))
  {
    match sm
    case DEFAULT => Ok("EXACT")
    case EXACT => Ok("EXACT")
    case CONTAINING => Ok("CONTAINING")
    case STARTING => Ok("STARTING")
    case ENDING => Ok("ENDING")
    case REGEX => Err(IllegalArgument("Unsupported StringMatcher " + StringMatcherName(sm)))
  }

  /** The probe's property values by name; a property without a value here
      reads as null. */
  type Probe = map<string, ExampleValue>

  /** The `_example` entry one property contributes: nothing for the id
      property or an ignored path, an include-null marker for a null value
      when nulls are included, and otherwise the value with its matcher; a
      string value is upper-cased when its path ignores case. Casting a
      non-string value of a String property fails. */
  function ExampleEntry(m: ExampleMatcher, p: Property, probe: Probe): (r: Result<Option<ExampleInfo>, Failure>)
    ensures IsIdProperty(p) || p.name in m.ignoredPaths ==> r == Ok(None)
    ensures !IsIdProperty(p) && p.name !in m.ignoredPaths && p.name !in probe ==>
              r == (if m.nullHandler == INCLUDE then Ok(Some(ExampleInfo(None, None, false, true))) else Ok(None))
    ensures r.Ok? && r.value.Some? && r.value.value.value.Some? ==>
              p.name in probe && !r.value.value.includeNull
    ensures r.Ok? && r.value.Some? && r.value.value.value.Some? && p.actualType != StringType ==>
              r.value.value == ExampleInfo(Some(probe[p.name]), Some("EXACT"), false, false)
    ensures r.Ok? && r.value.Some? && r.value.value.value.Some? && p.actualType == StringType ==>
              r.value.value.ignoreCase == IsIgnoreCaseForPath(m, p.name) &&
              r.value.value.value.value ==
                (if IsIgnoreCaseForPath(m, p.name) && probe[p.name].Text? then Text(ToUpper(probe[p.name].text)) else probe[p.name]) &&
              r.value.value.matcher.Some? &&
              StoredMatcher(StringMatcherForPath(m, p.name)) == Ok(r.value.value.matcher.value)
    ensures p.actualType == StringType && !IsIdProperty(p) && p.name !in m.ignoredPaths && p.name in probe ==>
              (r == Err(ClassCast) <==> IsIgnoreCaseForPath(m, p.name) && probe[p.name].NonText?)
  {
    if IsIdProperty(p) || p.name in m.ignoredPaths then Ok(None)
    else if p.name !in probe then
      if m.nullHandler == INCLUDE then Ok(Some(ExampleInfo(None, None, false, true))) else Ok(None)
    else
      var v := probe[p.name];
      if p.actualType == StringType then
        var ignoreCase := IsIgnoreCaseForPath(m, p.name);
        if ignoreCase && v.NonText? then Err(ClassCast)
        else
          var stored := if ignoreCase then Text(ToUpper(v.text)) else v;
          match StoredMatcher(StringMatcherForPath(m, p.name))
          case Err(f) => Err(f)
          case Ok(name) => Ok(Some(ExampleInfo(Some(stored), Some(name), ignoreCase, false)))
      else
        Ok(Some(ExampleInfo(Some(v), Some("EXACT"), false, false)))
  }

  /** buildExample as a fold over the visited properties: each property's
      entry is put in turn, and the first failure ends the walk. */
  function Examples(m: ExampleMatcher, props: seq<Property>, probe: Probe): Result<map<string, ExampleInfo>, Failure>
    decreases |props|
  {
    if props == [] then Ok(map[])
    else
      var last := props[|props| - 1];
      match Examples(m, props[..|props| - 1], probe)
      case Err(f) => Err(f)
      case Ok(acc) =>
        match ExampleEntry(m, last, probe)
        case Err(f) => Err(f)
        case Ok(None) => Ok(acc)
        case Ok(Some(info)) => Ok(acc[last.name := info])
  }

  /** Once the walk has failed, visiting more properties keeps the failure. */
  lemma {:induction false} FailureSticks(m: ExampleMatcher, props: seq<Property>, probe: Probe, i: nat)
    requires i <= |props|
    requires Examples(m, props[..i], probe).Err?
    ensures Examples(m, props, probe) == Examples(m, props[..i], probe)
    decreases |props| - i
  {
    if i < |props| {
      assert props[..i + 1][..i] == props[..i];
      FailureSticks(m, props, probe, i + 1);
    } else {
      assert props[..i] == props;
    }
  }

  /** buildExample: walks the properties of the entity and collects the
      entries of the probe. */
  method BuildExample(m: ExampleMatcher, e: Entity, probe: Probe) returns (r: Result<map<string, ExampleInfo>, Failure>)
    ensures r == Examples(m, PlainProperties(e.declared), probe)
  {
    var props := PlainProperties(e.declared);
    var example: map<string, ExampleInfo> := map[];
    var i := 0;
    while i < |props|
      invariant 0 <= i <= |props|
      invariant Examples(m, props[..i], probe) == Ok(example)
    {
      var p := props[i];
      var entry := ExampleEntry(m, p, probe);
      ExamplesStep(m, props, probe, i);
      if entry.Err? {
        FailureSticks(m, props, probe, i + 1);
        return Err(entry.error);
      }
      if entry.value.Some? {
        example := example[p.name := entry.value.value];
      }
      i := i + 1;
    }
    assert props[..i] == props;
    r := Ok(example);
  }

  /** One more property adds its entry to the walk, or fails it. */
  lemma ExamplesStep(m: ExampleMatcher, props: seq<Property>, probe: Probe, i: nat)
    requires i < |props|
    requires Examples(m, props[..i], probe).Ok?
    ensures Examples(m, props[..i + 1], probe) ==
              match ExampleEntry(m, props[i], probe)
              case Err(f) => Err(f)
              case Ok(None) => Examples(m, props[..i], probe)
              case Ok(Some(info)) => Ok(Examples(m, props[..i], probe).value[props[i].name := info])
  {
    assert props[..i + 1][..i] == props[..i];
  }

  /** The properties of one entity have distinct names. */
  predicate DistinctNames(props: seq<Property>)
  {
    forall i, j :: 0 <= i < j < |props| ==> props[i].name != props[j].name
  }

  /** The walk succeeds exactly when no property's entry fails. */
  lemma {:induction false} ExamplesSucceed(m: ExampleMatcher, props: seq<Property>, probe: Probe)
    ensures Examples(m, props, probe).Ok? <==> forall k :: 0 <= k < |props| ==> ExampleEntry(m, props[k], probe).Ok?
    decreases |props|
  {
    if props != [] {
      var n := |props| - 1;
      var init := props[..n];
      assert forall k :: 0 <= k < n ==> init[k] == props[k];
      ExamplesSucceed(m, init, probe);
      if Examples(m, init, probe).Err? {
        var k :| 0 <= k < n && ExampleEntry(m, init[k], probe).Err?;
        assert ExampleEntry(m, props[k], probe).Err?;
      }
    }
  }

  /** A successful walk over properties with distinct names holds exactly the
      entries of the properties: each property's entry is its value in the
      map (absent when the entry is None), and every key is a property name. */
  lemma {:induction false} ExamplesContents(m: ExampleMatcher, props: seq<Property>, probe: Probe)
    requires DistinctNames(props)
    requires Examples(m, props, probe).Ok?
    ensures forall k :: 0 <= k < |props| ==>
              ExampleEntry(m, props[k], probe) ==
                Ok(if props[k].name in Examples(m, props, probe).value
                   then Some(Examples(m, props, probe).value[props[k].name]) else None)
    ensures forall name :: name in Examples(m, props, probe).value ==> exists k :: 0 <= k < |props| && props[k].name == name
    decreases |props|
  {
    if props != [] {
      var n := |props| - 1;
      var init := props[..n];
      var last := props[n];
      assert forall k :: 0 <= k < n ==> init[k] == props[k];
      assert Examples(m, init, probe).Ok?;
      ExamplesContents(m, init, probe);
      var ex := Examples(m, props, probe).value;
      var acc := Examples(m, init, probe).value;
      assert forall k :: 0 <= k < n ==> props[k].name != last.name;
      assert ex == (if ExampleEntry(m, last, probe).value.Some? then acc[last.name := ExampleEntry(m, last, probe).value.value] else acc);
      forall name | name in ex
        ensures exists k :: 0 <= k < |props| && props[k].name == name
      {
        if name != last.name {
          var k :| 0 <= k < n && init[k].name == name;
          assert props[k].name == name;
        }
      }
    }
  }

  /** Every entry buildExample puts is one the generated condition is written
      for. */
  lemma EntryIsExpected(m: ExampleMatcher, p: Property, probe: Probe)
    requires ExampleEntry(m, p, probe).Ok? && ExampleEntry(m, p, probe).value.Some?
    ensures Expected(p, ExampleEntry(m, p, probe).value.value)
  {
  }

  /** The cross-file promise of query by example: for every property of the
      entity, exactly one of the fragments ExampleGenerator emits for it is
      active when the property has an entry in the built map, and none when it
      has not. */
  lemma ExactlyOneFragmentActive(m: ExampleMatcher, e: Entity, probe: Probe, p: Property)
    requires DistinctNames(PlainProperties(e.declared))
    requires Examples(m, PlainProperties(e.declared), probe).Ok?
    requires p in PlainProperties(e.declared)
    ensures var ex := Examples(m, PlainProperties(e.declared), probe).value;
            ActiveCount(Fragments(p), if p.name in ex then Some(ex[p.name]) else None) ==
              (if p.name in ex then 1 else 0)
    ensures IsIdProperty(p) || p.name in m.ignoredPaths ==>
              p.name !in Examples(m, PlainProperties(e.declared), probe).value
  {
    var props := PlainProperties(e.declared);
    var ex := Examples(m, props, probe).value;
    ExamplesContents(m, props, probe);
    var k :| 0 <= k < |props| && props[k] == p;
    var entry := if p.name in ex then Some(ex[p.name]) else None;
    assert ExampleEntry(m, p, probe) == Ok(entry);
    if entry.Some? {
      EntryIsExpected(m, p, probe);
    }
    GuardsExclusive(p, entry);
  }

  // ---------------------------------------------------------------------------
  // Statements handed to the SQL session
  // ---------------------------------------------------------------------------

  const StatementInsert := "_insert"
  const StatementUpdate := "_update"
  const StatementUpdateIgnoreNull := "_updateIgnoreNull"

  /** A request to the SQL session, by statement name within the entity's
      namespace and the names of the parameters bound; `Answered` is a result
      produced without the session. */
  datatype Request =
    | Answered
    | SelectList(statement: string, params: set<string>)
    | SelectOne(statement: string, params: set<string>)
    | Insert(statement: string)
    | Update(statement: string)
    | FindByPager(statement: string, countStatement: string, withExample: bool)
    | PageOfAll(request: Request)

  const UpdateNoRowMessage := "update effect 0 row, maybe version control lock occurred."

  /** update / updateIgnoreNull after the session reported `rows` affected
      rows: zero rows is an optimistic-lock failure, otherwise the same entity
      comes back. */
  function CheckUpdated<T>(entity: T, rows: int): (r: Result<T, Failure>)
    ensures r.Ok? <==> rows != 0
    ensures r.Ok? ==> r.value == entity
    ensures r.Err? ==> r.error.NoHint?
  {
    if rows == 0 then Err(NoHint(UpdateNoRowMessage)) else Ok(entity)
  }

  /** The statement update and updateIgnoreNull run. */
  function UpdateStatement(ignoreNull: bool): (r: string)
    ensures r == StatementUpdateIgnoreNull <==> ignoreNull
  {
    if ignoreNull then StatementUpdateIgnoreNull else StatementUpdate
  }

  /** saveIgnoreNull: a new entity is inserted, any other updated without
      touching null columns. */
  function SaveIgnoreNull(isNew: bool): (r: Request)
    ensures r.Insert? <==> isNew
    ensures r.Insert? ==> r.statement == StatementInsert
    ensures r.Update? ==> r.statement == UpdateStatement(true)
  {
    if isNew then Insert(StatementInsert) else Update(StatementUpdateIgnoreNull)
  }

  /** findAllById: null ids answer an empty list at once; otherwise `_findAll`
      is run with `_ids` bound. */
  function FindAllById<I>(ids: Option<seq<I>>): (r: Request)
    ensures r == Answered <==> ids.None?
    ensures ids.Some? ==> r == SelectList("_findAll", {"_ids"})
  {
    if ids.None? then Answered else SelectList("_findAll", {"_ids"})
  }

  /** count(example): `_countByExample` with `_example` bound. */
  function CountByExample(): (r: Request)
    ensures r.SelectOne? && r.statement == "_countByExample" && r.params == {"_example"}
  {
    SelectOne("_countByExample", {"_example"})
  }

  /** exists(example): the example matches a row iff the count is not zero. */
  function Exists(count: int): bool
  {
    count != 0
  }

  /** findAll(pageable): without a pageable the single page of everything
      (`_findAll` with a null sort); otherwise the pager over
      `_findByPager`/`_countByExample` with no example. */
  function FindAllPaged(pageable: bool): (r: Request)
    ensures !pageable ==> r == PageOfAll(SelectList("_findAll", {"_sorts"}))
    ensures pageable ==> r == FindByPager("_findByPager", "_countByExample", false)
  {
    if !pageable then PageOfAll(SelectList("_findAll", {"_sorts"}))
    else FindByPager("_findByPager", "_countByExample", false)
  }

  // ---------------------------------------------------------------------------
  // save and generated ids
  // ---------------------------------------------------------------------------

  /** An entity instance: its field values by property name. */
  class EntityObject<V> {
    var fields: map<string, V>

    constructor(fields: map<string, V>)
      ensures this.fields == fields
    {
      this.fields := fields;
    }
  }

  /** An id property carrying `@GeneratedValue`. */
  predicate HasGeneratedId(p: Property)
  {
    IsIdProperty(p) && p.generatedValue.Some?
  }

  function NoGeneratorMessage(entityName: string, propertyName: string): string
  {
    "No suitable IdentityGenerator foud for Entity " + entityName + " Property " + propertyName
  }

  /** The generator save uses for a property with `@GeneratedValue`: the
      factory's resolution of its strategy and generator name, given what the
      custom factory answers. save hands the persistent entity, not the
      property, to resolve, so the AUTO default is chosen by `entityType`, the
      type that entity reports. */
  function GeneratorFor(f: DefaultIdentityGeneratorFactory, entityType: JavaType, p: Property,
                        custom: (GenerationType, string, Property) -> Option<Generator>): Option<Generator>
    requires p.generatedValue.Some?
    reads f
  {
    var gv := p.generatedValue.value;
    f.Resolve(gv.strategy, Some(gv.generator), entityType, custom(gv.strategy, gv.generator, p))
  }

  /** With an initialised factory and no custom answer, an AUTO id with an
      empty generator name resolves exactly when the type save hands over is
      String, Long or Integer; the id property's own type plays no part. */
  lemma AutoDefaultFollowsEntityType(f: DefaultIdentityGeneratorFactory, entityType: JavaType, p: Property,
                                     custom: (GenerationType, string, Property) -> Option<Generator>)
    requires f.registry == InitialRegistry()
    requires p.generatedValue.Some? && p.generatedValue.value.strategy == AUTO && p.generatedValue.value.generator == ""
    requires custom(AUTO, "", p).None?
    ensures GeneratorFor(f, entityType, p, custom).Some? <==> entityType in {StringType, BoxedLong, BoxedInteger}
    ensures entityType == StringType ==> GeneratorFor(f, entityType, p, custom) == Some(UuidGenerator)
  {
    ResolveAfterInitialisation(f, AUTO, Some(""), entityType);
  }

  /** The id assignment of save, from the first property on: each id with
      `@GeneratedValue` gets a generated value; the first one without a
      generator stops the walk with an IllegalArgumentException, keeping the
      values already set. */
  function AssignIds<V>(f: DefaultIdentityGeneratorFactory, entityName: string, entityType: JavaType, props: seq<Property>,
                        fields: map<string, V>,
                        custom: (GenerationType, string, Property) -> Option<Generator>,
                        generate: (Generator, Property) -> V): (map<string, V>, Option<Failure>)
    reads f
    decreases |props|
  {
    if props == [] then (fields, None)
    else
      var p := props[0];
      if HasGeneratedId(p) then
        match GeneratorFor(f, entityType, p, custom)
        case None => (fields, Some(IllegalArgument(NoGeneratorMessage(entityName, p.name))))
        case Some(g) => AssignIds(f, entityName, entityType, props[1..], fields[p.name := generate(g, p)], custom, generate)
      else AssignIds(f, entityName, entityType, props[1..], fields, custom, generate)
  }

  /** The assignment succeeds iff every generated id has a generator; it only
      ever writes generated ids, and on success each holds the value its
      generator produced. */
  lemma AssignIdsEffect<V>(f: DefaultIdentityGeneratorFactory, entityName: string, entityType: JavaType, props: seq<Property>,
                                   fields: map<string, V>,
                                   custom: (GenerationType, string, Property) -> Option<Generator>,
                                   generate: (Generator, Property) -> V)
    requires DistinctNames(props)
    ensures var (out, failure) := AssignIds(f, entityName, entityType, props, fields, custom, generate);
            (failure.None? <==> forall k :: 0 <= k < |props| && HasGeneratedId(props[k]) ==> GeneratorFor(f, entityType, props[k], custom).Some?) &&
            (failure.Some? ==> failure.value.IllegalArgument?) &&
            (forall name :: name in fields ==> name in out) &&
            (forall name :: name in out && !(name in fields && out[name] == fields[name]) ==>
               exists k :: 0 <= k < |props| && props[k].name == name && HasGeneratedId(props[k])) &&
            (failure.None? ==>
               forall k :: 0 <= k < |props| && HasGeneratedId(props[k]) ==>
                 props[k].name in out && out[props[k].name] == generate(GeneratorFor(f, entityType, props[k], custom).value, props[k]))
  {
    AssignIdsOutcome(f, entityName, entityType, props, fields, custom, generate);
    AssignIdsFailureKind(f, entityName, entityType, props, fields, custom, generate);
    AssignIdsFrame(f, entityName, entityType, props, fields, custom, generate);
    AssignIdsValues(f, entityName, entityType, props, fields, custom, generate);
  }

  lemma {:induction false} AssignIdsOutcome<V>(f: DefaultIdentityGeneratorFactory, entityName: string, entityType: JavaType, props: seq<Property>,
                                   fields: map<string, V>,
                                   custom: (GenerationType, string, Property) -> Option<Generator>,
                                   generate: (Generator, Property) -> V)
    ensures AssignIds(f, entityName, entityType, props, fields, custom, generate).1.None? <==>
            forall k :: 0 <= k < |props| && HasGeneratedId(props[k]) ==> GeneratorFor(f, entityType, props[k], custom).Some?
    decreases |props|, 1
  {
    if props != [] {
      if HasGeneratedId(props[0]) && GeneratorFor(f, entityType, props[0], custom).Some? {
        AssignIdsOutcomeGenerated(f, entityName, entityType, props, fields, custom, generate);
      } else if !HasGeneratedId(props[0]) {
        AssignIdsOutcomePlain(f, entityName, entityType, props, fields, custom, generate);
      }
    }
  }

  lemma {:induction false} AssignIdsOutcomeGenerated<V>(f: DefaultIdentityGeneratorFactory, entityName: string, entityType: JavaType, props: seq<Property>,
                                   fields: map<string, V>,
                                   custom: (GenerationType, string, Property) -> Option<Generator>,
                                   generate: (Generator, Property) -> V)
    requires props != [] && HasGeneratedId(props[0]) && GeneratorFor(f, entityType, props[0], custom).Some?
    ensures AssignIds(f, entityName, entityType, props, fields, custom, generate).1.None? <==>
            forall k :: 0 <= k < |props| && HasGeneratedId(props[k]) ==> GeneratorFor(f, entityType, props[k], custom).Some?
    decreases |props|, 0
  {
    var p := props[0];
    var tail := props[1..];
    assert forall k :: 0 <= k < |tail| ==> tail[k] == props[k + 1];
    var fields' := fields[p.name := generate(GeneratorFor(f, entityType, p, custom).value, p)];
    AssignIdsOutcome(f, entityName, entityType, tail, fields', custom, generate);
  }

  lemma {:induction false} AssignIdsOutcomePlain<V>(f: DefaultIdentityGeneratorFactory, entityName: string, entityType: JavaType, props: seq<Property>,
                                   fields: map<string, V>,
                                   custom: (GenerationType, string, Property) -> Option<Generator>,
                                   generate: (Generator, Property) -> V)
    requires props != [] && !HasGeneratedId(props[0])
    ensures AssignIds(f, entityName, entityType, props, fields, custom, generate).1.None? <==>
            forall k :: 0 <= k < |props| && HasGeneratedId(props[k]) ==> GeneratorFor(f, entityType, props[k], custom).Some?
    decreases |props|, 0
  {
    var tail := props[1..];
    assert forall k :: 0 <= k < |tail| ==> tail[k] == props[k + 1];
    AssignIdsOutcome(f, entityName, entityType, tail, fields, custom, generate);
  }

  lemma {:induction false} AssignIdsFailureKind<V>(f: DefaultIdentityGeneratorFactory, entityName: string, entityType: JavaType, props: seq<Property>,
                                   fields: map<string, V>,
                                   custom: (GenerationType, string, Property) -> Option<Generator>,
                                   generate: (Generator, Property) -> V)
    ensures var failure := AssignIds(f, entityName, entityType, props, fields, custom, generate).1;
            failure.Some? ==> failure.value.IllegalArgument?
    decreases |props|
  {
    if props != [] {
      var p := props[0];
      if HasGeneratedId(p) && GeneratorFor(f, entityType, p, custom).Some? {
        var fields' := fields[p.name := generate(GeneratorFor(f, entityType, p, custom).value, p)];
        AssignIdsFailureKind(f, entityName, entityType, props[1..], fields', custom, generate);
      } else if !HasGeneratedId(p) {
        AssignIdsFailureKind(f, entityName, entityType, props[1..], fields, custom, generate);
      }
    }
  }

  lemma {:induction false} AssignIdsFrame<V>(f: DefaultIdentityGeneratorFactory, entityName: string, entityType: JavaType, props: seq<Property>,
                                   fields: map<string, V>,
                                   custom: (GenerationType, string, Property) -> Option<Generator>,
                                   generate: (Generator, Property) -> V)
    ensures var (out, failure) := AssignIds(f, entityName, entityType, props, fields, custom, generate);
            (forall name :: name in fields ==> name in out) &&
            (forall name :: name in out && !(name in fields && out[name] == fields[name]) ==>
               exists k :: 0 <= k < |props| && props[k].name == name && HasGeneratedId(props[k]))
    decreases |props|, 1
  {
    if props != [] {
      if HasGeneratedId(props[0]) && GeneratorFor(f, entityType, props[0], custom).Some? {
        AssignIdsFrameGenerated(f, entityName, entityType, props, fields, custom, generate);
      } else if !HasGeneratedId(props[0]) {
        AssignIdsFramePlain(f, entityName, entityType, props, fields, custom, generate);
      }
    }
  }

  /** The frame of the walk past an id that gets a generated value. */
  lemma {:induction false} AssignIdsFrameGenerated<V>(f: DefaultIdentityGeneratorFactory, entityName: string, entityType: JavaType, props: seq<Property>,
                                   fields: map<string, V>,
                                   custom: (GenerationType, string, Property) -> Option<Generator>,
                                   generate: (Generator, Property) -> V)
    requires props != [] && HasGeneratedId(props[0]) && GeneratorFor(f, entityType, props[0], custom).Some?
    ensures var (out, failure) := AssignIds(f, entityName, entityType, props, fields, custom, generate);
            (forall name :: name in fields ==> name in out) &&
            (forall name :: name in out && !(name in fields && out[name] == fields[name]) ==>
               exists k :: 0 <= k < |props| && props[k].name == name && HasGeneratedId(props[k]))
    decreases |props|, 0
  {
    var p := props[0];
    var tail := props[1..];
    var fields' := fields[p.name := generate(GeneratorFor(f, entityType, p, custom).value, p)];
    AssignIdsFrame(f, entityName, entityType, tail, fields', custom, generate);
    assert forall name :: name in fields ==> name in fields';
    var (out, failure) := AssignIds(f, entityName, entityType, props, fields, custom, generate);
    forall name | name in out && !(name in fields && out[name] == fields[name])
      ensures exists k :: 0 <= k < |props| && props[k].name == name && HasGeneratedId(props[k])
    {
      if name != p.name {
        assert !(name in fields' && out[name] == fields'[name]);
        var k :| 0 <= k < |tail| && tail[k].name == name && HasGeneratedId(tail[k]);
        assert props[k + 1] == tail[k];
      } else {
        assert props[0].name == name;
      }
    }
  }

  /** The frame of the walk past a property without a generated value. */
  lemma {:induction false} AssignIdsFramePlain<V>(f: DefaultIdentityGeneratorFactory, entityName: string, entityType: JavaType, props: seq<Property>,
                                   fields: map<string, V>,
                                   custom: (GenerationType, string, Property) -> Option<Generator>,
                                   generate: (Generator, Property) -> V)
    requires props != [] && !HasGeneratedId(props[0])
    ensures var (out, failure) := AssignIds(f, entityName, entityType, props, fields, custom, generate);
            (forall name :: name in fields ==> name in out) &&
            (forall name :: name in out && !(name in fields && out[name] == fields[name]) ==>
               exists k :: 0 <= k < |props| && props[k].name == name && HasGeneratedId(props[k]))
    decreases |props|, 0
  {
    var tail := props[1..];
    AssignIdsFrame(f, entityName, entityType, tail, fields, custom, generate);
    var (out, failure) := AssignIds(f, entityName, entityType, props, fields, custom, generate);
    forall name | name in out && !(name in fields && out[name] == fields[name])
      ensures exists k :: 0 <= k < |props| && props[k].name == name && HasGeneratedId(props[k])
    {
      var k :| 0 <= k < |tail| && tail[k].name == name && HasGeneratedId(tail[k]);
      assert props[k + 1] == tail[k];
    }
  }

  lemma {:induction false} AssignIdsValues<V>(f: DefaultIdentityGeneratorFactory, entityName: string, entityType: JavaType, props: seq<Property>,
                                   fields: map<string, V>,
                                   custom: (GenerationType, string, Property) -> Option<Generator>,
                                   generate: (Generator, Property) -> V)
    requires DistinctNames(props)
    ensures var (out, failure) := AssignIds(f, entityName, entityType, props, fields, custom, generate);
            failure.None? ==>
              forall k :: 0 <= k < |props| && HasGeneratedId(props[k]) && GeneratorFor(f, entityType, props[k], custom).Some? ==>
                props[k].name in out && out[props[k].name] == generate(GeneratorFor(f, entityType, props[k], custom).value, props[k])
    decreases |props|, 1
  {
    if props != [] {
      if HasGeneratedId(props[0]) && GeneratorFor(f, entityType, props[0], custom).Some? {
        AssignIdsValuesGenerated(f, entityName, entityType, props, fields, custom, generate);
      } else if !HasGeneratedId(props[0]) {
        AssignIdsValuesPlain(f, entityName, entityType, props, fields, custom, generate);
      }
    }
  }

  lemma {:induction false} AssignIdsValuesGenerated<V>(f: DefaultIdentityGeneratorFactory, entityName: string, entityType: JavaType, props: seq<Property>,
                                   fields: map<string, V>,
                                   custom: (GenerationType, string, Property) -> Option<Generator>,
                                   generate: (Generator, Property) -> V)
    requires props != [] && HasGeneratedId(props[0]) && GeneratorFor(f, entityType, props[0], custom).Some?
    requires DistinctNames(props)
    ensures var (out, failure) := AssignIds(f, entityName, entityType, props, fields, custom, generate);
            failure.None? ==>
              forall k :: 0 <= k < |props| && HasGeneratedId(props[k]) && GeneratorFor(f, entityType, props[k], custom).Some? ==>
                props[k].name in out && out[props[k].name] == generate(GeneratorFor(f, entityType, props[k], custom).value, props[k])
    decreases |props|, 0
  {
    var p := props[0];
    var tail := props[1..];
    assert forall k :: 0 <= k < |tail| ==> tail[k] == props[k + 1];
    var fields' := fields[p.name := generate(GeneratorFor(f, entityType, p, custom).value, p)];
    AssignIdsValues(f, entityName, entityType, tail, fields', custom, generate);
    AssignIdsFrame(f, entityName, entityType, tail, fields', custom, generate);
    var (out, failure) := AssignIds(f, entityName, entityType, props, fields, custom, generate);
    if failure.None? {
      assert p.name in fields';
    }
  }

  lemma {:induction false} AssignIdsValuesPlain<V>(f: DefaultIdentityGeneratorFactory, entityName: string, entityType: JavaType, props: seq<Property>,
                                   fields: map<string, V>,
                                   custom: (GenerationType, string, Property) -> Option<Generator>,
                                   generate: (Generator, Property) -> V)
    requires props != [] && !HasGeneratedId(props[0])
    requires DistinctNames(props)
    ensures var (out, failure) := AssignIds(f, entityName, entityType, props, fields, custom, generate);
            failure.None? ==>
              forall k :: 0 <= k < |props| && HasGeneratedId(props[k]) && GeneratorFor(f, entityType, props[k], custom).Some? ==>
                props[k].name in out && out[props[k].name] == generate(GeneratorFor(f, entityType, props[k], custom).value, props[k])
    decreases |props|, 0
  {
    var tail := props[1..];
    assert forall k :: 0 <= k < |tail| ==> tail[k] == props[k + 1];
    AssignIdsValues(f, entityName, entityType, tail, fields, custom, generate);
  }

  /** save: a new entity first gets its generated ids and is then inserted; an
      existing one is updated. */
  method Save<V>(e: Entity, entityType: JavaType, entity: EntityObject<V>, isNew: bool, f: DefaultIdentityGeneratorFactory,
                 custom: (GenerationType, string, Property) -> Option<Generator>,
                 generate: (Generator, Property) -> V) returns (r: Result<Request, Failure>)
    modifies entity
    ensures !isNew ==> r == Ok(Update(StatementUpdate)) && entity.fields == old(entity.fields)
    ensures isNew ==>
              var (out, failure) := AssignIds(f, e.entityName, entityType, PlainProperties(e.declared), old(entity.fields), custom, generate);
              entity.fields == out &&
              r == (if failure.None? then Ok(Insert(StatementInsert)) else Err(failure.value))
  {
    if !isNew {
      return Ok(Update(StatementUpdate));
    }
    var props := PlainProperties(e.declared);
    var i := 0;
    while i < |props|
      invariant 0 <= i <= |props|
      invariant AssignIds(f, e.entityName, entityType, props[i..], entity.fields, custom, generate) ==
                AssignIds(f, e.entityName, entityType, props, old(entity.fields), custom, generate)
    {
      var p := props[i];
      assert props[i..][1..] == props[i + 1..];
      if HasGeneratedId(p) {
        var g := GeneratorFor(f, entityType, p, custom);
        if g.None? {
          return Err(IllegalArgument(NoGeneratorMessage(e.entityName, p.name)));
        }
        entity.fields := entity.fields[p.name := generate(g.value, p)];
      }
      i := i + 1;
    }
    r := Ok(Insert(StatementInsert));
  }

  /** save and saveIgnoreNull insert the same new entities when no id is
      generated, and differ on existing ones only in the update statement. */
  lemma SaveAndSaveIgnoreNullAgree<V>(f: DefaultIdentityGeneratorFactory, e: Entity, entityType: JavaType, fields: map<string, V>,
                                      custom: (GenerationType, string, Property) -> Option<Generator>,
                                      generate: (Generator, Property) -> V)
    requires forall q :: q in PlainProperties(e.declared) ==> !HasGeneratedId(q)
    ensures AssignIds(f, e.entityName, entityType, PlainProperties(e.declared), fields, custom, generate) == (fields, None)
    ensures SaveIgnoreNull(true) == Insert(StatementInsert)
    ensures SaveIgnoreNull(false) == Update(UpdateStatement(true))
  {
    NoGeneratedIds(f, e.entityName, entityType, PlainProperties(e.declared), fields, custom, generate);
  }

  lemma {:induction false} NoGeneratedIds<V>(f: DefaultIdentityGeneratorFactory, entityName: string, entityType: JavaType, props: seq<Property>,
                                             fields: map<string, V>,
                                             custom: (GenerationType, string, Property) -> Option<Generator>,
                                             generate: (Generator, Property) -> V)
    requires forall q :: q in props ==> !HasGeneratedId(q)
    ensures AssignIds(f, entityName, entityType, props, fields, custom, generate) == (fields, None)
    decreases |props|
  {
    if props != [] {
      assert props[0] in props;
      assert forall q :: q in props[1..] ==> q in props;
      NoGeneratedIds(f, entityName, entityType, props[1..], fields, custom, generate);
    }
  }
}
