/**
 * `FluentMapper.MapperStarter`: a private registry and accessor factory, with
 * `withMapper(mode).set(mapper)` to register a mapper of the caller's own.
 */
module FluentMapper {
  import opened Wrappers
  import opened GenericBuilder
  import opened Threading
  import opened Jackson
  import opened MapperBuilders
  import opened Registry
  import opened Accessors

  class MapperStarter {
    const mappers: Mappers
    const factory: AccessorFactory

    /** The factory resolves through this starter's own registry. */
    ghost predicate Valid()
      reads this, factory
    {
      factory.Valid() && factory.resolver == mappers
    }

    /** `new MapperStarter()`: an empty registry (`new Mappers(null)`) and a factory on it. */
    constructor ()
      ensures Valid() && fresh(mappers) && fresh(factory)
      ensures mappers.mappers == map[]
      ensures factory.json == None && factory.node == None && factory.instance == None
    {
      var m := new Mappers(None);
      mappers := m;
      factory := new AccessorFactory(m);
    }

    /**
     * `withMapper(mode).set(mapper)`: registers the mapper for the mode with
     * the `Throw` policy, so a null mapper throws IllegalArgumentException and
     * registers nothing; a null mode is refused by the registry's map.
     */
    method WithMapperSet(mode: Option<MapperMode>, mapper: Option<ObjectMapper>) returns (r: Result<MapperStarter>)
      modifies mappers
      ensures mapper.None? ==> r == Failure(IllegalArgument("value")) && mappers.mappers == old(mappers.mappers)
      ensures mapper.Some? && mode.None? ==> r == Failure(NullPointer) && mappers.mappers == old(mappers.mappers)
      ensures mapper.Some? && mode.Some? ==>
                r == Success(this) && mappers.mappers == old(mappers.mappers)[mode.value := mapper.value]
    {
      var call := SetAndReturnThis(mapper, true, Throw);
      if call.Threw? {
        return Failure(call.error);
      }
      var registered := mappers.Register(mode, call.arg);
      if registered.Fail? {
        return Failure(registered.error);
      }
      r := Success(this);
    }

    /** `json(json)`: the factory's shared text accessor, holding the payload for the calling thread. */
    method Json(tid: ThreadId, json: Option<string>) returns (r: Result<Accessor<string>>)
      requires Valid()
      modifies factory, factory.JsonFrame()
      ensures Valid()
      ensures json.None? ==> r == Failure(IllegalArgument("value"))
      ensures json.Some? ==>
                factory.json.Some? && r == Success(factory.json.value) &&
                factory.JsonSlots() == old(factory.JsonSlots())[tid := json.value]
    {
      r := factory.NewJson(tid, json);
    }

    /** `node(node)`. */
    method Node(tid: ThreadId, node: Option<JsonNode>) returns (r: Result<Accessor<JsonNode>>)
      requires Valid()
      modifies factory, factory.NodeFrame()
      ensures Valid()
      ensures node.None? ==> r == Failure(IllegalArgument("value"))
      ensures node.Some? ==>
                factory.node.Some? && r == Success(factory.node.value) &&
                factory.NodeSlots() == old(factory.NodeSlots())[tid := node.value]
    {
      r := factory.NewNode(tid, node);
    }

    /** `instance(instance)`. */
    method Instance(tid: ThreadId, instance: Option<Jackson.Instance>) returns (r: Result<Accessor<Jackson.Instance>>)
      requires Valid()
      modifies factory, factory.InstanceFrame()
      ensures Valid()
      ensures instance.None? ==> r == Failure(IllegalArgument("value"))
      ensures instance.Some? ==>
                factory.instance.Some? && r == Success(factory.instance.value) &&
                factory.InstanceSlots() == old(factory.InstanceSlots())[tid := instance.value]
    {
      r := factory.NewInstance(tid, instance);
    }
  }

  /**
   * `withMapper(mode).set(m)` followed by `resolveFor(mode)`: the registry
   * hands back `m` itself and builds nothing.
   */
  method SetThenResolve(s: MapperStarter, mode: MapperMode, m: ObjectMapper) returns (r: Result<ObjectMapper>)
    modifies s.mappers
    ensures r == Success(m)
    ensures s.mappers.mappers == old(s.mappers.mappers)[mode := m]
  {
    var _ := s.WithMapperSet(Some(mode), Some(m));
    r := s.mappers.ResolveFor(Some(mode));
  }
}
