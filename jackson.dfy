/**
 * Stand-ins for the serialization engine the library wraps. Only what the
 * modelled code observes is kept: a mapper is an object with an identity, the
 * factory it was built on, and a configuration that builders change in place.
 * Parsing and printing are not modelled.
 */
module Jackson {
  import opened Wrappers

  /** A parsed tree (`JsonNode`), as an opaque handle. */
  datatype JsonNode = JsonNode(handle: nat)

  /** An object of the caller's types, as an opaque handle. */
  datatype Instance = Instance(handle: nat)

  /** The encoding a mapper was built for. */
  datatype Format =
    | PlainJson                 // new ObjectMapper()
    | YamlMinimizeQuotes        // new ObjectMapper(new YAMLFactory().enable(MINIMIZE_QUOTES))

  /** A `com.fasterxml.jackson.databind.Module`, by name. */
  datatype Module = Module(name: string)

  /** A `JacksonAnnotationIntrospector`, by name. */
  datatype Introspector = Introspector(name: string)

  /** The settings of a mapper that the library touches. */
  datatype MapperConfig = MapperConfig(
    failOnEmptyBeans: bool,
    writeDatesAsTimestamps: bool,
    bigDecimalAsString: bool,
    introspector: Option<Introspector>,
    modules: seq<Module>)

  /** The engine's defaults for a newly constructed mapper. */
  const DefaultConfig := MapperConfig(true, true, false, None, [])

  /** An `ObjectMapper`: configured in place, compared by identity. */
  class ObjectMapper {
    const format: Format
    var config: MapperConfig

    constructor (format: Format)
      ensures this.format == format && config == DefaultConfig
    {
      this.format := format;
      config := DefaultConfig;
    }

    /** `registerModule(module)`, modelled as appending the module. */
    method RegisterModule(m: Module)
      modifies this
      ensures config == old(config).(modules := old(config).modules + [m])
    {
      config := config.(modules := config.modules + [m]);
    }

    /** `setAnnotationIntrospector(introspector)`. */
    method SetAnnotationIntrospector(introspector: Introspector)
      modifies this
      ensures config == old(config).(introspector := Some(introspector))
    {
      config := config.(introspector := Some(introspector));
    }
  }
}
