/**
 * MapperBuilder.java: builds one mapper for a mode from a fixed factory table,
 * then configures that same mapper in place.
 */
module MapperBuilders {
  import opened Wrappers
  import opened GenericBuilder
  import opened Jackson

  /**
   * The encoding modes. JSON and YAML are the ones the factory table knows;
   * `Other` stands for any further constant of the mode enumeration.
   */
  datatype MapperMode = Json | Yaml | Other(name: string)

  /**
   * A `Consumer<ObjectMapper>` as the library uses it: given a mapper's
   * settings, the settings after the consumer's changes and whether it then
   * threw (changes made before an exception stay made).
   */
  type Configurator = MapperConfig -> (MapperConfig, Outcome)

  /**
   * How a possibly-null mode prints in a message (`"" + mode`): null prints
   * as "null", an enumeration constant as its name.
   */
  function ModeName(mode: Option<MapperMode>): (r: string)
    ensures mode.None? ==> r == "null"
    ensures mode == Some(Json) ==> r == "JSON"
    ensures mode == Some(Yaml) ==> r == "YAML"
    ensures mode.Some? && mode.value.Other? ==> r == mode.value.name
  {
    match mode
    case None => "null"
    case Some(Json) => "JSON"
    case Some(Yaml) => "YAML"
    case Some(Other(n)) => n
  }

  /** The `FACTORIES` table: which engine factory builds the mapper of a mode. */
  function Factories(mode: MapperMode): (f: Option<Format>)
    ensures f.Some? <==> mode == Json || mode == Yaml
    ensures mode == Json ==> f == Some(PlainJson)
    ensures mode == Yaml ==> f == Some(YamlMinimizeQuotes)
  {
    match mode
    case Json => Some(PlainJson)
    case Yaml => Some(YamlMinimizeQuotes)
    case Other(_) => None
  }

  /** The message of the IllegalArgumentException for a mode without a factory. */
  function CannotCreateMessage(mode: Option<MapperMode>): string
  {
    "Cannot create mapper for mode: " + ModeName(mode)
  }

  /**
   * The constructor's table lookup as one function: the format to build, or the
   * error for a null mode or a mode missing from the table.
   */
  function FormatFor(mode: Option<MapperMode>): (r: Result<Format>)
    ensures r.Success? <==> mode == Some(Json) || mode == Some(Yaml)
    ensures r.Failure? ==> r.error == IllegalArgument(CannotCreateMessage(mode))
    ensures r.Success? ==> Some(r.value) == Factories(mode.value)
  {
    match mode
    case None => Failure(IllegalArgument(CannotCreateMessage(mode)))
    case Some(m) =>
      match Factories(m)
      case None => Failure(IllegalArgument(CannotCreateMessage(mode)))
      case Some(f) => Success(f)
  }

  class MapperBuilder {
    /** The mapper, created once by the constructor. */
    const mapper: ObjectMapper

    /** The private constructor once the table has produced a format. */
    constructor (format: Format)
      ensures fresh(mapper) && mapper.format == format && mapper.config == DefaultConfig
    {
      mapper := new ObjectMapper(format);
    }

    /**
     * `configured(configure)`: a non-null configurator is applied to the mapper
     * once and the builder is returned; an exception it throws passes through,
     * after whatever it had changed. Null is a no-op.
     */
    method Configured(configure: Option<Configurator>) returns (r: Result<MapperBuilder>)
      modifies mapper
      ensures configure.None? ==> r == Success(this) && mapper.config == old(mapper.config)
      ensures configure.Some? ==>
                mapper.config == configure.value(old(mapper.config)).0 &&
                r == match configure.value(old(mapper.config)).1
                     case Pass => Success(this)
                     case Fail(e) => Failure(e)
    {
      var call := SetAndReturnThis(configure, true, Skip);
      if call.Called? {
        var (after, outcome) := call.arg.value(mapper.config);
        mapper.config := after;
        if outcome.Fail? {
          return Failure(outcome.error);
        }
      }
      r := Success(this);
    }

    /** `withIntrospector(introspector)`: null is a no-op. Returns the builder. */
    method WithIntrospector(introspector: Option<Introspector>) returns (r: MapperBuilder)
      modifies mapper
      ensures r == this
      ensures introspector.Some? ==> mapper.config == old(mapper.config).(introspector := introspector)
      ensures introspector.None? ==> mapper.config == old(mapper.config)
    {
      var call := SetAndReturnThis(introspector, true, Skip);
      if call.Called? {
        mapper.SetAnnotationIntrospector(call.arg.value);
      }
      r := this;
    }

    /**
     * `withModules(modules...)`: registers every module, in array order; a null
     * array is a no-op. Returns the builder.
     */
    method WithModules(modules: Option<seq<Module>>) returns (r: MapperBuilder)
      modifies mapper
      ensures r == this
      ensures modules.Some? ==>
                mapper.config == old(mapper.config).(modules := old(mapper.config).modules + modules.value)
      ensures modules.None? ==> mapper.config == old(mapper.config)
    {
      var call := SetAndReturnThis(modules, true, Skip);
      if call.Called? {
        var ms := call.arg.value;
        var i := 0;
        while i < |ms|
          invariant 0 <= i <= |ms|
          invariant mapper.config == old(mapper.config).(modules := old(mapper.config).modules + ms[..i])
        {
          mapper.RegisterModule(ms[i]);
          assert ms[..i + 1] == ms[..i] + [ms[i]];
          i := i + 1;
        }
        assert ms[..i] == ms;
      }
      r := this;
    }

    /** `build()`: always the mapper the constructor created. */
    method Build() returns (m: ObjectMapper)
      ensures m == mapper
    {
      m := mapper;
    }
  }

  /**
   * `mapperFor(mode)`: a null mode, or one the table does not know, throws
   * "Cannot create mapper for mode: ..."; otherwise a fresh builder around a
   * fresh mapper of the mode's format with the engine's default settings.
   */
  method MapperFor(mode: Option<MapperMode>) returns (r: Result<MapperBuilder>)
    ensures FormatFor(mode).Failure? ==> r == Failure(FormatFor(mode).error)
    ensures FormatFor(mode).Success? ==>
              r.Success? && fresh(r.value) && fresh(r.value.mapper) &&
              r.value.mapper.format == FormatFor(mode).value && r.value.mapper.config == DefaultConfig
  {
    var format := FormatFor(mode);
    if format.Failure? {
      return Failure(format.error);
    }
    var b := new MapperBuilder(format.value);
    r := Success(b);
  }

  /** Two `build` calls on one builder give the same mapper object. */
  method BuildTwice(b: MapperBuilder) returns (m1: ObjectMapper, m2: ObjectMapper)
    ensures m1 == m2 == b.mapper
  {
    m1 := b.Build();
    m2 := b.Build();
  }
}
