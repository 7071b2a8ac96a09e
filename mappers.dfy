/**
 * The `Mappers` record of FluentMapper.java: the mode-keyed registry of
 * configured mappers that every accessor resolves its mapper through. Its map
 * is a `ConcurrentHashMap`; the atomicity of `computeIfAbsent` is not modelled
 * (calls are sequential), but its refusal of a null key is.
 */
module Registry {
  import opened Wrappers
  import opened Jackson
  import opened MapperBuilders

  /**
   * Stand-in for `Default.CONFIGURATOR`: it never throws, turns off failing on
   * empty beans and dates as timestamps, writes big decimals as strings, and
   * leaves every other setting as it was.
   */
  function DefaultConfigurator(c: MapperConfig): (r: (MapperConfig, Outcome))
    ensures r.1 == Pass
    ensures !r.0.failOnEmptyBeans && !r.0.writeDatesAsTimestamps && r.0.bigDecimalAsString
    ensures r.0.introspector == c.introspector && r.0.modules == c.modules
  {
    (c.(failOnEmptyBeans := false, writeDatesAsTimestamps := false, bigDecimalAsString := true), Pass)
  }

  /** Applying `Default.CONFIGURATOR` a second time changes nothing more. */
  lemma DefaultConfiguratorIdempotent(c: MapperConfig)
    ensures DefaultConfigurator(DefaultConfigurator(c).0) == DefaultConfigurator(c)
  {
  }

  /** Stand-in for `Default.MODULES`: the date/time module. */
  const DefaultModules: seq<Module> := [Module("JavaTimeModule")]

  /** The settings of a mapper that `resolveFor` has just built. */
  const ResolvedConfig: MapperConfig :=
    DefaultConfigurator(DefaultConfig).0.(modules := DefaultConfig.modules + DefaultModules)

  /**
   * A mapper built by `resolveFor` fails on no empty bean, writes dates as
   * text and big decimals as strings, has the engine's introspector, and has
   * exactly the date/time module registered.
   */
  lemma ResolvedSettings()
    ensures ResolvedConfig == MapperConfig(false, false, true, None, [Module("JavaTimeModule")])
  {
  }

  class Mappers {
    /** The registry: at most one mapper per mode. */
    var mappers: map<MapperMode, ObjectMapper>

    /** The compact constructor: a null map becomes a new, empty one. */
    constructor (initial: Option<map<MapperMode, ObjectMapper>>)
      ensures initial.None? ==> mappers == map[]
      ensures initial.Some? ==> mappers == initial.value
    {
      mappers := if initial.Some? then initial.value else map[];
    }

    /**
     * `register(mode, mapper)`: a non-null mapper becomes the entry for the mode,
     * replacing any earlier one; a null mapper changes nothing. A null mode with
     * a non-null mapper is refused by the concurrent map.
     */
    method Register(mode: Option<MapperMode>, mapper: Option<ObjectMapper>) returns (r: Outcome)
      modifies this
      ensures mapper.None? ==> r == Pass && mappers == old(mappers)
      ensures mapper.Some? && mode.None? ==> r == Fail(NullPointer) && mappers == old(mappers)
      ensures mapper.Some? && mode.Some? ==> r == Pass && mappers == old(mappers)[mode.value := mapper.value]
    {
      r := Pass;
      if mapper.Some? {
        if mode.None? {
          return Fail(NullPointer);
        }
        mappers := mappers[mode.value := mapper.value];
      }
    }

    /**
     * `resolveFor(mode)`: `computeIfAbsent` with a builder that applies
     * `Default.CONFIGURATOR` and `Default.MODULES`.
     */
    method ResolveFor(mode: Option<MapperMode>) returns (r: Result<ObjectMapper>)
      modifies this
      ensures ResolvedFor(this, mode, r)
    {
      if mode.None? {
        return Failure(NullPointer);
      }
      if mode.value in mappers {
        return Success(mappers[mode.value]);
      }
      var builder := MapperFor(mode);
      if builder.Failure? {
        return Failure(builder.error);
      }
      var b := builder.value;
      var configured := b.Configured(Some(DefaultConfigurator));
      b := configured.value;
      b := b.WithModules(Some(DefaultModules));
      var m := b.Build();
      mappers := mappers[mode.value := m];
      r := Success(m);
    }
  }

  /**
   * What `resolveFor(mode)` does to registry `m` and returns: a null key throws;
   * an existing entry is returned without building anything; a missing mode
   * is built once (or the builder's error is thrown and nothing is stored) and
   * the fresh mapper is stored for that mode alone.
   */
  twostate predicate ResolvedFor(m: Mappers, mode: Option<MapperMode>, new r: Result<ObjectMapper>)
    reads m, if r.Success? then {r.value} else {}
  {
    match mode
    case None => r == Failure(NullPointer) && m.mappers == old(m.mappers)
    case Some(k) =>
      if k in old(m.mappers) then
        r == Success(old(m.mappers)[k]) && m.mappers == old(m.mappers)
      else
        match FormatFor(mode)
        case Failure(e) => r == Failure(e) && m.mappers == old(m.mappers)
        case Success(f) =>
          r.Success? && fresh(r.value) && r.value.format == f && r.value.config == ResolvedConfig &&
          m.mappers == old(m.mappers)[k := r.value]
  }

  /**
   * Resolving the same mode twice: the second call returns the same mapper as
   * the first and builds nothing.
   */
  method ResolveTwice(m: Mappers, mode: Option<MapperMode>) returns (r1: Result<ObjectMapper>, r2: Result<ObjectMapper>)
    modifies m
    ensures r1.Success? ==> r2 == r1
    ensures r1.Success? && mode.Some? ==> mode.value in m.mappers && m.mappers[mode.value] == r1.value
    ensures forall k :: k in old(m.mappers) && Some(k) != mode ==> k in m.mappers && m.mappers[k] == old(m.mappers)[k]
  {
    r1 := m.ResolveFor(mode);
    r2 := m.ResolveFor(mode);
  }
}
