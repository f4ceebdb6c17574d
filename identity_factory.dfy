/** DefaultIdentityGeneratorFactory: picks the identity generator for an id
    property from its `@GeneratedValue` strategy and generator name, after
    giving a user-supplied custom factory the first word. */
module IdentityFactory {
  import opened Common
  import opened Mapping

  const DefaultStringTypeIdGenerator := "uuid"
  const DefaultNumericalTypeGenerator := "sequenceTable"

  /** The generators the factory can hand out. */
  datatype Generator = UuidGenerator | SequenceTableGenerator | CustomGenerator(name: string)

  /** The registry after initialisation. */
  function InitialRegistry(): map<string, Generator>
  {
    map[DefaultStringTypeIdGenerator := UuidGenerator, DefaultNumericalTypeGenerator := SequenceTableGenerator]
  }

  /** For AUTO: the registry key looked up. An empty (or null) generator name
      is replaced by "uuid" for String ids and "sequenceTable" for Long or
      Integer ids; any other id type keeps the empty name. */
  function AutoGeneratorName(generator: Option<string>, idType: JavaType): (r: Option<string>)
    ensures generator.Some? && generator.value != "" ==> r == generator
    ensures (generator.None? || generator.value == "") && idType == StringType ==> r == Some(DefaultStringTypeIdGenerator)
    ensures (generator.None? || generator.value == "") && (idType == BoxedLong || idType == BoxedInteger) ==>
              r == Some(DefaultNumericalTypeGenerator)
    ensures (generator.None? || generator.value == "") && !(idType in {StringType, BoxedLong, BoxedInteger}) ==>
              r == generator
  {
    if generator.None? || generator.value == "" then
      if idType == StringType then Some(DefaultStringTypeIdGenerator)
      else if idType == BoxedLong || idType == BoxedInteger then Some(DefaultNumericalTypeGenerator)
      else generator
    else generator
  }

  class DefaultIdentityGeneratorFactory {
    /** autoGenerationTypeGeneratorMapping */
    var registry: map<string, Generator>

    constructor()
      ensures registry == map[]
    {
      registry := map[];
    }

    /** afterPropertiesSet: registers the UUID generator and the sequence-table generator. */
    method AfterPropertiesSet()
      modifies this
      ensures registry == old(registry)[DefaultStringTypeIdGenerator := UuidGenerator][DefaultNumericalTypeGenerator := SequenceTableGenerator]
    {
      registry := registry[DefaultStringTypeIdGenerator := UuidGenerator];
      registry := registry[DefaultNumericalTypeGenerator := SequenceTableGenerator];
    }

    function Lookup(name: Option<string>): Option<Generator>
      reads this
    {
      if name.Some? && name.value in registry then Some(registry[name.value]) else None
    }

    /** resolve: `custom` is what the custom factory returned (None when there
        is none or it returned null). */
    function Resolve(strategy: GenerationType, generator: Option<string>, idType: JavaType, custom: Option<Generator>): (r: Option<Generator>)
      reads this
      ensures custom.Some? ==> r == custom
      ensures custom.None? && strategy == SEQUENCE ==> r.None?
    {
      if custom.Some? then custom
      else match strategy
        case IDENTITY => Lookup(Some(DefaultStringTypeIdGenerator))
        case TABLE => Lookup(Some(DefaultNumericalTypeGenerator))
        case AUTO => Lookup(AutoGeneratorName(generator, idType))
        case SEQUENCE => None
    }
  }

  /** A fresh factory, once initialised, holds exactly "uuid" and "sequenceTable". */
  method InitialisedFactory() returns (f: DefaultIdentityGeneratorFactory)
    ensures f.registry == InitialRegistry()
    ensures f.registry.Keys == {DefaultStringTypeIdGenerator, DefaultNumericalTypeGenerator}
  {
    f := new DefaultIdentityGeneratorFactory();
    f.AfterPropertiesSet();
  }

  /** The decision table of an initialised factory without a custom match:
      IDENTITY gives the UUID generator, TABLE the sequence table, AUTO looks up
      the explicit name or the type-derived default, SEQUENCE gives nothing. */
  lemma ResolveAfterInitialisation(f: DefaultIdentityGeneratorFactory, strategy: GenerationType, generator: Option<string>, idType: JavaType)
    requires f.registry == InitialRegistry()
    ensures strategy == IDENTITY ==> f.Resolve(strategy, generator, idType, None) == Some(UuidGenerator)
    ensures strategy == TABLE ==> f.Resolve(strategy, generator, idType, None) == Some(SequenceTableGenerator)
    ensures strategy == AUTO && (generator.None? || generator.value == "") && idType == StringType ==>
              f.Resolve(strategy, generator, idType, None) == Some(UuidGenerator)
    ensures strategy == AUTO && (generator.None? || generator.value == "") && (idType == BoxedLong || idType == BoxedInteger) ==>
              f.Resolve(strategy, generator, idType, None) == Some(SequenceTableGenerator)
    ensures strategy == AUTO && (generator.None? || generator.value == "") && !(idType in {StringType, BoxedLong, BoxedInteger}) ==>
              f.Resolve(strategy, generator, idType, None).None?
    ensures strategy == AUTO && generator.Some? && generator.value != "" ==>
              (f.Resolve(strategy, generator, idType, None).Some? <==> generator.value in {"uuid", "sequenceTable"})
  {
  }
}
