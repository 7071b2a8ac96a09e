/**
 * The fluent accessor pipeline (AbstractAccessor.java) and the factory that
 * owns one shared accessor per representation (AccessorFactory.java).
 *
 * An accessor keeps its payload in a `ThreadLocalScope` without a default
 * factory, so each thread sees only its own payload. Reading the payload,
 * plainly or through a conversion, consumes it: the slot is cleared on every
 * exit path. A conversion hands its result to the factory's accessor of the
 * target representation.
 *
 * The engine calls made inside a conversion (`readTree`, `readValue`,
 * `writeValueAsString`, ...) are the conversion function, a parameter that may
 * return null or throw.
 */
module Accessors {
  import opened Wrappers
  import opened GenericBuilder
  import opened Threading
  import opened Jackson
  import opened MapperBuilders
  import opened Registry

  /** The three representations: JsonAccessor, NodeAccessor, InstanceAccessor. */
  datatype Kind = JsonKind | NodeKind | InstanceKind

  /**
   * The `catch` of `executeAndRelease`: a JsonProcessingException is rethrown
   * wrapped in a RuntimeException; any other exception passes through as it is.
   */
  function Rethrown(e: Exception): (r: Exception)
    ensures e.JsonProcessing? ==> r == Wrapped(e)
    ensures !e.JsonProcessing? ==> r == e
  {
    if e.JsonProcessing? then Wrapped(e) else e
  }

  /** The outcome of the conversion function as `executeAndRelease` passes it on. */
  function Released<R>(out: Result<R>): (r: Result<R>)
    ensures out.Success? <==> r.Success?
    ensures out.Success? ==> r == out
    ensures out.Failure? ==> r.error == Rethrown(out.error)
  {
    match out
    case Success(v) => Success(v)
    case Failure(e) => Failure(Rethrown(e))
  }

  /** An accessor of one representation `T`, owned by `factory`. */
  class Accessor<T> {
    /** The per-thread payload (`new ThreadLocalScope<>()`). */
    const data: ThreadLocalScope<T>
    const factory: AccessorFactory
    const kind: Kind

    /** The payload scope has no default factory. */
    ghost predicate Valid()
    {
      data.defaultFactory == None
    }

    /** This accessor is the one its factory hands out for its representation. */
    ghost predicate Registered()
      reads this, factory
    {
      Valid() && factory.Valid() &&
      match kind
      case JsonKind => factory.json.Some? && factory.json.value as object == this as object
      case NodeKind => factory.node.Some? && factory.node.value as object == this as object
      case InstanceKind => factory.instance.Some? && factory.instance.value as object == this as object
    }

    constructor (factory: AccessorFactory, kind: Kind)
      ensures Valid() && this.factory == factory && this.kind == kind
      ensures fresh(data) && data.slots == map[]
    {
      this.factory := factory;
      this.kind := kind;
      data := new ThreadLocalScope();
    }

    /** `mapper(mode)`: whatever the owning factory resolves for the mode. */
    method Mapper(mode: Option<MapperMode>) returns (r: Result<ObjectMapper>)
      modifies factory.resolver
      ensures ResolvedFor(factory.resolver, mode, r)
    {
      r := factory.Mapper(mode);
    }

    /**
     * `initialize(data)`: a null payload throws IllegalArgumentException and
     * changes nothing (`Throw`); a non-null payload becomes the calling thread's
     * payload, and the accessor itself is returned.
     */
    method Initialize(tid: ThreadId, value: Option<T>) returns (r: Result<Accessor<T>>)
      modifies data
      ensures data.factoryCalls == old(data.factoryCalls)
      ensures value.None? ==> r == Failure(IllegalArgument("value")) && data.slots == old(data.slots)
      ensures value.Some? ==> r == Success(this) && data.slots == old(data.slots)[tid := value.value]
    {
      var call := SetAndReturnThis(value, true, Throw);
      if call.Threw? {
        return Failure(call.error);
      }
      assert call == Called(value);
      var _ := data.Initialize(tid, call.arg);
      r := Success(this);
    }

    /**
     * `executeAndRelease(function)`: applies the function to the calling
     * thread's payload (null when there is none) and clears that payload
     * whatever the function does; a JsonProcessingException comes out wrapped.
     */
    method ExecuteAndRelease<R>(tid: ThreadId, convert: Option<T> -> Result<R>) returns (r: Result<R>)
      requires Valid()
      modifies data
      ensures data.slots == old(data.slots) - {tid} && data.factoryCalls == old(data.factoryCalls)
      ensures r == Released(convert(old(data.GetRaw(tid))))
    {
      var payload := data.Get(tid);
      var out := convert(payload.value);
      data.Close(tid);
      r := Released(out);
    }

    /**
     * `get()`: the calling thread's payload, consumed; without a new
     * `initialize` the next `get` on this thread returns null.
     */
    method Get(tid: ThreadId) returns (r: Option<T>)
      requires Valid()
      modifies data
      ensures r == old(data.GetRaw(tid))
      ensures data.slots == old(data.slots) - {tid} && data.factoryCalls == old(data.factoryCalls)
    {
      var out := ExecuteAndRelease(tid, x => Success(x));
      r := out.value;
    }

    /**
     * `toJson(function)`: consumes the payload, converts it, and hands a
     * successful result to the factory's text accessor (`newJson`), which is
     * created on first use. A failed conversion leaves that accessor alone; a
     * null result reaches it and is refused by its `initialize`.
     */
    method ToJson(tid: ThreadId, convert: Option<T> -> Result<Option<string>>) returns (r: Result<Accessor<string>>)
      requires Registered() && kind != JsonKind
      modifies data, factory, factory.JsonFrame()
      ensures Registered()
      ensures data.slots == old(data.slots) - {tid}
      ensures factory.node == old(factory.node) && factory.instance == old(factory.instance)
      ensures old(factory.json).Some? ==> factory.json == old(factory.json)
      ensures old(factory.json).None? && factory.json.Some? ==> fresh(factory.json.value) && fresh(factory.json.value.data)
      ensures ConvertedInto(convert(old(data.GetRaw(tid))), r, factory.json, old(factory.json),
                            factory.JsonSlots(), old(factory.JsonSlots()), tid)
    {
      var out := ExecuteAndRelease(tid, convert);
      if out.Failure? {
        return Failure(out.error);
      }
      r := factory.NewJson(tid, out.value);
    }

    /** `toNode(function)`: as `toJson`, into the factory's tree accessor. */
    method ToNode(tid: ThreadId, convert: Option<T> -> Result<Option<JsonNode>>) returns (r: Result<Accessor<JsonNode>>)
      requires Registered() && kind != NodeKind
      modifies data, factory, factory.NodeFrame()
      ensures Registered()
      ensures data.slots == old(data.slots) - {tid}
      ensures factory.json == old(factory.json) && factory.instance == old(factory.instance)
      ensures old(factory.node).Some? ==> factory.node == old(factory.node)
      ensures old(factory.node).None? && factory.node.Some? ==> fresh(factory.node.value) && fresh(factory.node.value.data)
      ensures ConvertedInto(convert(old(data.GetRaw(tid))), r, factory.node, old(factory.node),
                            factory.NodeSlots(), old(factory.NodeSlots()), tid)
    {
      var out := ExecuteAndRelease(tid, convert);
      if out.Failure? {
        return Failure(out.error);
      }
      r := factory.NewNode(tid, out.value);
    }

    /** `toInstance(function)`: as `toJson`, into the factory's object accessor. */
    method ToInstance(tid: ThreadId, convert: Option<T> -> Result<Option<Instance>>) returns (r: Result<Accessor<Instance>>)
      requires Registered() && kind != InstanceKind
      modifies data, factory, factory.InstanceFrame()
      ensures Registered()
      ensures data.slots == old(data.slots) - {tid}
      ensures factory.json == old(factory.json) && factory.node == old(factory.node)
      ensures old(factory.instance).Some? ==> factory.instance == old(factory.instance)
      ensures old(factory.instance).None? && factory.instance.Some? ==> fresh(factory.instance.value) && fresh(factory.instance.value.data)
      ensures ConvertedInto(convert(old(data.GetRaw(tid))), r, factory.instance, old(factory.instance),
                            factory.InstanceSlots(), old(factory.InstanceSlots()), tid)
    {
      var out := ExecuteAndRelease(tid, convert);
      if out.Failure? {
        return Failure(out.error);
      }
      r := factory.NewInstance(tid, out.value);
    }

    // The concrete conversions (JsonAccessor, NodeAccessor, InstanceAccessor)
    // all have one shape: the conversion function first asks the owning
    // factory for the JSON mapper, which resolves it through the registry
    // (building and storing it on first use), then makes one engine call with
    // that mapper. Resolving JSON never fails and touches only the registry,
    // so it is done here before the payload is consumed; `engine` is the
    // engine call, given the resolved mapper and the payload.

    /** `getPretty()` of the text accessor: the engine's pretty-printed text of the payload. */
    method Pretty(tid: ThreadId, engine: (ObjectMapper, Option<T>) -> Result<Option<string>>)
      returns (r: Result<Option<string>>)
      requires Registered() && kind == JsonKind
      modifies data, factory.resolver
      ensures Json in factory.resolver.mappers
      ensures ResolvedFor(factory.resolver, Some(Json), Success(factory.resolver.mappers[Json]))
      ensures data.slots == old(data.slots) - {tid}
      ensures r == Released(engine(factory.resolver.mappers[Json], old(data.GetRaw(tid))))
    {
      var m := factory.Mapper(Some(Json));
      r := ExecuteAndRelease(tid, x => engine(m.value, x));
    }

    /**
     * `asJson()` of the tree and object accessors: the payload written as text
     * with the JSON mapper, handed to the factory's text accessor.
     */
    method AsJson(tid: ThreadId, engine: (ObjectMapper, Option<T>) -> Result<Option<string>>)
      returns (r: Result<Accessor<string>>)
      requires Registered() && kind != JsonKind
      modifies data, factory, factory.JsonFrame(), factory.resolver
      ensures Registered()
      ensures Json in factory.resolver.mappers
      ensures ResolvedFor(factory.resolver, Some(Json), Success(factory.resolver.mappers[Json]))
      ensures data.slots == old(data.slots) - {tid}
      ensures factory.node == old(factory.node) && factory.instance == old(factory.instance)
      ensures old(factory.json).Some? ==> factory.json == old(factory.json)
      ensures old(factory.json).None? && factory.json.Some? ==> fresh(factory.json.value) && fresh(factory.json.value.data)
      ensures ConvertedInto(engine(factory.resolver.mappers[Json], old(data.GetRaw(tid))), r,
                            factory.json, old(factory.json), factory.JsonSlots(), old(factory.JsonSlots()), tid)
    {
      var m := factory.Mapper(Some(Json));
      r := ToJson(tid, x => engine(m.value, x));
    }

    /**
     * `asNode(type)` of the text and object accessors: the payload read or
     * converted into a tree with the JSON mapper (the cast to the requested
     * node type is part of the engine call), handed to the tree accessor.
     */
    method AsNode(tid: ThreadId, engine: (ObjectMapper, Option<T>) -> Result<Option<JsonNode>>)
      returns (r: Result<Accessor<JsonNode>>)
      requires Registered() && kind != NodeKind
      modifies data, factory, factory.NodeFrame(), factory.resolver
      ensures Registered()
      ensures Json in factory.resolver.mappers
      ensures ResolvedFor(factory.resolver, Some(Json), Success(factory.resolver.mappers[Json]))
      ensures data.slots == old(data.slots) - {tid}
      ensures factory.json == old(factory.json) && factory.instance == old(factory.instance)
      ensures old(factory.node).Some? ==> factory.node == old(factory.node)
      ensures old(factory.node).None? && factory.node.Some? ==> fresh(factory.node.value) && fresh(factory.node.value.data)
      ensures ConvertedInto(engine(factory.resolver.mappers[Json], old(data.GetRaw(tid))), r,
                            factory.node, old(factory.node), factory.NodeSlots(), old(factory.NodeSlots()), tid)
    {
      var m := factory.Mapper(Some(Json));
      r := ToNode(tid, x => engine(m.value, x));
    }

    /**
     * `asType(type)` of the text and tree accessors (both overloads): the
     * payload read into an object with the JSON mapper, handed to the object
     * accessor.
     */
    method AsType(tid: ThreadId, engine: (ObjectMapper, Option<T>) -> Result<Option<Instance>>)
      returns (r: Result<Accessor<Instance>>)
      requires Registered() && kind != InstanceKind
      modifies data, factory, factory.InstanceFrame(), factory.resolver
      ensures Registered()
      ensures Json in factory.resolver.mappers
      ensures ResolvedFor(factory.resolver, Some(Json), Success(factory.resolver.mappers[Json]))
      ensures data.slots == old(data.slots) - {tid}
      ensures factory.json == old(factory.json) && factory.node == old(factory.node)
      ensures old(factory.instance).Some? ==> factory.instance == old(factory.instance)
      ensures old(factory.instance).None? && factory.instance.Some? ==> fresh(factory.instance.value) && fresh(factory.instance.value.data)
      ensures ConvertedInto(engine(factory.resolver.mappers[Json], old(data.GetRaw(tid))), r,
                            factory.instance, old(factory.instance), factory.InstanceSlots(), old(factory.InstanceSlots()), tid)
    {
      var m := factory.Mapper(Some(Json));
      r := ToInstance(tid, x => engine(m.value, x));
    }
  }

  /**
   * What a conversion (`toAccessor`) did, seen from the target representation:
   * `out` is the conversion function's outcome, `target`/`slots` the factory's
   * target accessor and its per-thread payloads after the call, `target0`/`slots0`
   * the same before it.
   *   - the function threw: the (rethrown) exception, and the target is untouched;
   *   - it returned null: the target accessor exists now, its `initialize`
   *     threw, and no payload changed;
   *   - it returned a value: the target accessor is returned and holds the value
   *     for the calling thread; every other thread's payload is unchanged.
   */
  ghost predicate ConvertedInto<R>(out: Result<Option<R>>, r: Result<Accessor<R>>,
                                   target: Option<Accessor<R>>, target0: Option<Accessor<R>>,
                                   slots: map<ThreadId, R>, slots0: map<ThreadId, R>, tid: ThreadId)
  {
    match out
    case Failure(e) => r == Failure(Rethrown(e)) && target == target0 && slots == slots0
    case Success(None) => r == Failure(IllegalArgument("value")) && target.Some? && slots == slots0
    case Success(Some(v)) => target.Some? && r == Success(target.value) && slots == slots0[tid := v]
  }

  /** AccessorFactory.java: one lazily created, shared accessor per representation. */
  class AccessorFactory {
    const resolver: Mappers
    /** The three `Lazy` fields: `None` until first use, then the same accessor forever. */
    var json: Option<Accessor<string>>
    var node: Option<Accessor<JsonNode>>
    var instance: Option<Accessor<Instance>>

    /** Every accessor handed out is owned by this factory, of the right kind, with its own payload scope. */
    ghost predicate Valid()
      reads this
    {
      (json.Some? ==> json.value.factory == this && json.value.kind == JsonKind && json.value.Valid()) &&
      (node.Some? ==> node.value.factory == this && node.value.kind == NodeKind && node.value.Valid()) &&
      (instance.Some? ==> instance.value.factory == this && instance.value.kind == InstanceKind && instance.value.Valid()) &&
      (json.Some? && node.Some? ==> json.value.data as object != node.value.data as object) &&
      (json.Some? && instance.Some? ==> json.value.data as object != instance.value.data as object) &&
      (node.Some? && instance.Some? ==> node.value.data as object != instance.value.data as object)
    }

    /** The payload scope of the text accessor, once it exists. */
    function JsonFrame(): set<object>
      reads this
    {
      if json.Some? then {json.value.data} else {}
    }

    function NodeFrame(): set<object>
      reads this
    {
      if node.Some? then {node.value.data} else {}
    }

    function InstanceFrame(): set<object>
      reads this
    {
      if instance.Some? then {instance.value.data} else {}
    }

    /** Each thread's text payload (none before the text accessor exists). */
    ghost function JsonSlots(): map<ThreadId, string>
      reads this, JsonFrame()
    {
      if json.Some? then json.value.data.slots else map[]
    }

    ghost function NodeSlots(): map<ThreadId, JsonNode>
      reads this, NodeFrame()
    {
      if node.Some? then node.value.data.slots else map[]
    }

    ghost function InstanceSlots(): map<ThreadId, Instance>
      reads this, InstanceFrame()
    {
      if instance.Some? then instance.value.data.slots else map[]
    }

    /** `new AccessorFactory(mapperResolver)`: no accessor has been created yet. */
    constructor (resolver: Mappers)
      ensures Valid() && this.resolver == resolver
      ensures json == None && node == None && instance == None
    {
      this.resolver := resolver;
      json := None;
      node := None;
      instance := None;
    }

    /** `mapper(mode)`: exactly what the resolver returns for the mode. */
    method Mapper(mode: Option<MapperMode>) returns (r: Result<ObjectMapper>)
      modifies resolver
      ensures ResolvedFor(resolver, mode, r)
    {
      r := resolver.ResolveFor(mode);
    }

    /** `json.get()`: the text accessor, created with this factory as owner on first use only. */
    method LazyJson() returns (a: Accessor<string>)
      requires Valid()
      modifies this
      ensures Valid() && json == Some(a) && node == old(node) && instance == old(instance)
      ensures old(json).Some? ==> a == old(json).value
      ensures old(json).None? ==> fresh(a) && fresh(a.data) && a.data.slots == map[]
    {
      if json.None? {
        var created := new Accessor(this, JsonKind);
        json := Some(created);
      }
      a := json.value;
    }

    /** `node.get()`. */
    method LazyNode() returns (a: Accessor<JsonNode>)
      requires Valid()
      modifies this
      ensures Valid() && node == Some(a) && json == old(json) && instance == old(instance)
      ensures old(node).Some? ==> a == old(node).value
      ensures old(node).None? ==> fresh(a) && fresh(a.data) && a.data.slots == map[]
    {
      if node.None? {
        var created := new Accessor(this, NodeKind);
        node := Some(created);
      }
      a := node.value;
    }

    /** `instance.get()`. */
    method LazyInstance() returns (a: Accessor<Instance>)
      requires Valid()
      modifies this
      ensures Valid() && instance == Some(a) && json == old(json) && node == old(node)
      ensures old(instance).Some? ==> a == old(instance).value
      ensures old(instance).None? ==> fresh(a) && fresh(a.data) && a.data.slots == map[]
    {
      if instance.None? {
        var created := new Accessor(this, InstanceKind);
        instance := Some(created);
      }
      a := instance.value;
    }

    /**
     * `newJson(json)` (`getAndInitialize`): the shared text accessor, holding
     * the payload for the calling thread; a null payload throws.
     */
    method NewJson(tid: ThreadId, value: Option<string>) returns (r: Result<Accessor<string>>)
      requires Valid()
      modifies this, JsonFrame()
      ensures Valid() && json.Some? && node == old(node) && instance == old(instance)
      ensures old(json).Some? ==> json == old(json)
      ensures old(json).None? ==> fresh(json.value) && fresh(json.value.data)
      ensures value.None? ==> r == Failure(IllegalArgument("value")) && JsonSlots() == old(JsonSlots())
      ensures value.Some? ==> r == Success(json.value) && JsonSlots() == old(JsonSlots())[tid := value.value]
    {
      var a := LazyJson();
      r := a.Initialize(tid, value);
    }

    /** `newNode(node)`. */
    method NewNode(tid: ThreadId, value: Option<JsonNode>) returns (r: Result<Accessor<JsonNode>>)
      requires Valid()
      modifies this, NodeFrame()
      ensures Valid() && node.Some? && json == old(json) && instance == old(instance)
      ensures old(node).Some? ==> node == old(node)
      ensures old(node).None? ==> fresh(node.value) && fresh(node.value.data)
      ensures value.None? ==> r == Failure(IllegalArgument("value")) && NodeSlots() == old(NodeSlots())
      ensures value.Some? ==> r == Success(node.value) && NodeSlots() == old(NodeSlots())[tid := value.value]
    {
      var a := LazyNode();
      r := a.Initialize(tid, value);
    }

    /** `newInstance(instance)`. */
    method NewInstance(tid: ThreadId, value: Option<Instance>) returns (r: Result<Accessor<Instance>>)
      requires Valid()
      modifies this, InstanceFrame()
      ensures Valid() && instance.Some? && json == old(json) && node == old(node)
      ensures old(instance).Some? ==> instance == old(instance)
      ensures old(instance).None? ==> fresh(instance.value) && fresh(instance.value.data)
      ensures value.None? ==> r == Failure(IllegalArgument("value")) && InstanceSlots() == old(InstanceSlots())
      ensures value.Some? ==> r == Success(instance.value) && InstanceSlots() == old(InstanceSlots())[tid := value.value]
    {
      var a := LazyInstance();
      r := a.Initialize(tid, value);
    }
  }

  /** Two per-thread maps agree on every thread other than `tid`. */
  ghost predicate SameExcept<V>(m1: map<ThreadId, V>, m0: map<ThreadId, V>, tid: ThreadId)
  {
    forall t :: t != tid ==> (t in m1 <==> t in m0) && (t in m1 ==> m1[t] == m0[t])
  }

  /**
   * A whole chain on one thread, `json(text).asType(...).get()`: the result is
   * the engine's decoding of the text with the registry's JSON mapper, which
   * is resolved (built on first use) once the text has been accepted; both
   * shared accessors are left without a payload for the calling thread when
   * the chain succeeds, and no other thread's payload in either accessor
   * changes, whatever happens.
   */
  method JsonToInstance(f: AccessorFactory, tid: ThreadId, text: Option<string>,
                        decode: (ObjectMapper, Option<string>) -> Result<Option<Instance>>)
    returns (r: Result<Option<Instance>>)
    requires f.Valid()
    modifies f, f.JsonFrame(), f.InstanceFrame(), f.resolver
    ensures f.Valid() && f.node == old(f.node)
    ensures text.None? ==> r == Failure(IllegalArgument("value")) && f.resolver.mappers == old(f.resolver.mappers)
    ensures text.Some? ==>
              Json in f.resolver.mappers &&
              ResolvedFor(f.resolver, Some(Json), Success(f.resolver.mappers[Json])) &&
              r == match decode(f.resolver.mappers[Json], text)
                   case Failure(e) => Failure(Rethrown(e))
                   case Success(None) => Failure(IllegalArgument("value"))
                   case Success(Some(v)) => Success(Some(v))
    ensures r.Success? ==> tid !in f.JsonSlots() && tid !in f.InstanceSlots()
    ensures SameExcept(f.JsonSlots(), old(f.JsonSlots()), tid)
    ensures SameExcept(f.InstanceSlots(), old(f.InstanceSlots()), tid)
  {
    var a := f.NewJson(tid, text);
    if a.Failure? {
      return Failure(a.error);
    }
    var b := a.value.AsType(tid, decode);
    if b.Failure? {
      return Failure(b.error);
    }
    var v := b.value.Get(tid);
    r := Success(v);
  }

  /** `initialize` then two `get`s on one thread: the payload, then null. */
  method GetConsumes<T>(a: Accessor<T>, tid: ThreadId, value: T) returns (first: Option<T>, second: Option<T>)
    requires a.Valid()
    modifies a.data
    ensures first == Some(value) && second == None
    ensures a.data.slots == old(a.data.slots) - {tid}
  {
    var _ := a.Initialize(tid, Some(value));
    first := a.Get(tid);
    second := a.Get(tid);
  }
}
