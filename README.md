# birch: a verified model of the fluent serialization and reflection helpers

birch wraps the Jackson object mapper in fluent, thread-aware accessors:
`FluentMapper.json(text).asType(Foo.class).get()`. The library itself adds
these pieces:

- a one-slot lazy cache (`Lazy`);
- a null-policy dispatcher that every builder uses (`GenericBuilder`);
- a per-thread slot (`ThreadLocalScope`);
- accessors whose payload is consumed by every read or conversion
  (`AbstractAccessor`). A factory owns one shared accessor per representation
  (`AccessorFactory`);
- a mode-keyed registry of mappers (`FluentMapper.Mappers`) and the builder
  that creates them (`MapperBuilder`);
- a reflection helper (`Reflector`). Its `type`, `method` and `field` entry
  points store a subject for the calling thread, and each query then consumes
  it.

This project models those pieces in Dafny and proves what they promise.

- **Modelling choices.**
  - Null is `Option`.
  - A thrown exception is a `Failure` carrying an `Exception` value.
  - A `Supplier` is a function from its call number to what that call
    returns or throws.
  - A `Consumer<ObjectMapper>` that configures a mapper is a function from the
    mapper's settings to the settings it leaves behind and whether it then
    threw.
  - A `ThreadLocal` is a map from the calling thread's identity to its value.
    Each operation takes the calling thread as a parameter.
  - Jackson mappers are objects with an identity and a configuration record.
  - Jackson's parsing and printing are engine functions, passed as
    parameters, that are given the resolved mapper and may return null or
    throw.
  - Java classes, methods and fields are descriptor records: kind flags, name,
    superclasses, interfaces, declared methods and annotations.
- **Module layout.**
  - `wrappers.dfy`: `Option`, `Result`, `Exception`.
  - `generic_builder.dfy`: the dispatcher.
  - `lazy.dfy`: `Lazy`.
  - `threading.dfy`: `ThreadLocalScope`.
  - `jackson.dfy`: stand-ins for the engine's types.
  - `mapper_builder.dfy`: `MapperBuilder`.
  - `mappers.dfy`: the `Mappers` registry.
  - `accessors.dfy`: `AbstractAccessor` and `AccessorFactory`.
  - `fluent_mapper.dfy`: `MapperStarter`.
  - `reflector_logic.dfy`: the pure decisions of `Reflector`.
  - `reflector.dfy`: `Reflector`'s thread-bound accessors.

Source paths below are relative to the repository root.

## Model

| member | source | states |
|---|---|---|
| GenericBuilder.SetAndReturnThis | src/main/java/tech/grove/birch/patterns/builder/GenericBuilder.java:22-47 | a null setter means no call for any value and mode; a non-null value reaches the setter exactly once in every mode; a null value reaches it under ACCEPT, throws IllegalArgumentException("value") under THROW, and is dropped under SKIP |
| GenericBuilder.SetAndReturnThisSkipping | src/main/java/tech/grove/birch/patterns/builder/GenericBuilder.java:18-20 | the two-argument overload never throws and calls the setter, with the value itself, exactly when setter and value are both non-null |
| GenericBuilder.RunAndReturnThis | src/main/java/tech/grove/birch/patterns/builder/GenericBuilder.java:9-16 | the action runs exactly when it is non-null |
| LazyInit.Lazy.constructor | src/main/java/tech/grove/birch/patterns/lazy/Lazy.java:12-19 | a new cache holds no instance and has not called its factory |
| LazyInit.Lazy.IsInitialized | src/main/java/tech/grove/birch/patterns/lazy/Lazy.java:52-54 | initialized exactly when the slot holds an instance |
| LazyInit.Lazy.Get | src/main/java/tech/grove/birch/patterns/lazy/Lazy.java:37-50 | a filled slot is returned without calling the factory; an empty slot calls it once and caches its product; a null product throws "Invalid factory instance. Factory should never produce NULL!" and leaves the slot empty; an exception from the factory passes through and leaves the slot empty; a success never carries null; the cached instance is always the latest factory product |
| LazyInit.Lazy.Reset | src/main/java/tech/grove/birch/patterns/lazy/Lazy.java:56-58 | the slot is empty afterwards and the factory has not been called |
| LazyInit.NewLazy | src/main/java/tech/grove/birch/patterns/lazy/Lazy.java:12-19 | a null factory throws IllegalArgumentException("factory"); otherwise a fresh, uninitialized cache on that factory |
| LazyInit.GetTwice | src/main/java/tech/grove/birch/patterns/lazy/Lazy.java:38-50 | two gets call the factory at most once when the first succeeds, and the second returns the same instance |
| LazyInit.ResetThenGet | src/main/java/tech/grove/birch/patterns/lazy/Lazy.java:38-58 | after reset the next get calls the factory exactly once more; it succeeds exactly when that call returns a non-null value, which is then cached; on failure the cache stays empty |
| Threading.ThreadLocalScope.constructor | src/main/java/tech/grove/birch/threading/ThreadLocalScope.java:13-15 | no default factory, and every thread's slot is empty |
| Threading.ThreadLocalScope.WithDefault | src/main/java/tech/grove/birch/threading/ThreadLocalScope.java:17-20 | the given (possibly null) default factory, and every slot empty |
| Threading.ThreadLocalScope.GetRaw | src/main/java/tech/grove/birch/threading/ThreadLocalScope.java:37-39 | the calling thread's stored value, or null when it has none; no factory involved |
| Threading.ThreadLocalScope.Initialize | src/main/java/tech/grove/birch/threading/ThreadLocalScope.java:22-24 | a non-null value becomes the calling thread's value; null changes nothing; the scope itself is returned; other threads' slots are unchanged |
| Threading.ThreadLocalScope.Get | src/main/java/tech/grove/birch/threading/ThreadLocalScope.java:26-35 | a stored value is returned without calling the factory; an empty slot with a factory calls it once and stores and returns its product; an exception from the factory passes through and stores nothing; without a factory it returns null and nothing changes; other threads' slots are unchanged |
| Threading.ThreadLocalScope.Close | src/main/java/tech/grove/birch/threading/ThreadLocalScope.java:41-45 | afterwards the calling thread reads null; every other thread keeps its value |
| MapperBuilders.Factories | src/main/java/tech/grove/birch/serialization/creators/MapperBuilder.java:20-25 | the table has an entry exactly for JSON (plain mapper) and YAML (YAML factory with minimized quotes) |
| MapperBuilders.FormatFor | src/main/java/tech/grove/birch/serialization/creators/MapperBuilder.java:33-38 | succeeds exactly for JSON and YAML, with the table's format; a null or unknown mode gives IllegalArgumentException "Cannot create mapper for mode: " followed by the mode |
| MapperBuilders.MapperBuilder.constructor | src/main/java/tech/grove/birch/serialization/creators/MapperBuilder.java:31-38 | a fresh mapper of the mode's format with the engine's default settings |
| MapperBuilders.ModeName | src/main/java/tech/grove/birch/serialization/creators/MapperBuilder.java:37 | a null mode prints as "null", a constant as its name |
| MapperBuilders.MapperBuilder.Configured | src/main/java/tech/grove/birch/serialization/creators/MapperBuilder.java:40-42 | a non-null configurator is applied once to the mapper and the builder is returned; an exception it throws passes through, after the changes it made; null changes nothing |
| MapperBuilders.MapperBuilder.WithIntrospector | src/main/java/tech/grove/birch/serialization/creators/MapperBuilder.java:44-46 | a non-null introspector is installed; null changes nothing; returns the builder |
| MapperBuilders.MapperBuilder.WithModules | src/main/java/tech/grove/birch/serialization/creators/MapperBuilder.java:48-51 | every module is registered in array order (the mapper's module list grows by exactly the array); null changes nothing |
| MapperBuilders.MapperBuilder.Build | src/main/java/tech/grove/birch/serialization/creators/MapperBuilder.java:53-55 | always the mapper created by the constructor |
| MapperBuilders.MapperFor | src/main/java/tech/grove/birch/serialization/creators/MapperBuilder.java:27-38 | a null or unknown mode throws the table lookup's error; JSON and YAML give a fresh builder around a fresh default mapper of that format |
| MapperBuilders.BuildTwice | src/main/java/tech/grove/birch/serialization/creators/MapperBuilder.java:53-55 | repeated builds return the same mapper object |
| Registry.DefaultConfigurator | src/main/java/tech/grove/birch/serialization/FluentMapper.java:28-32 | never throws; turns off failing on empty beans and dates as timestamps, writes big decimals as strings, and keeps every other setting |
| Registry.DefaultConfiguratorIdempotent | src/main/java/tech/grove/birch/serialization/FluentMapper.java:28-32 | applying the configurator twice is the same as once |
| Registry.ResolvedSettings | src/main/java/tech/grove/birch/serialization/FluentMapper.java:25-32 | a mapper built by resolveFor has the configurator's three settings, the engine's introspector, and exactly the date/time module |
| Registry.Mappers.constructor | src/main/java/tech/grove/birch/serialization/FluentMapper.java:73-77 | a null map becomes an empty registry; a given map is kept as it is |
| Registry.Mappers.Register | src/main/java/tech/grove/birch/serialization/FluentMapper.java:79-83 | a non-null mapper becomes the entry for its mode, replacing an earlier one; a null mapper changes nothing; a null mode with a mapper is refused with NullPointerException |
| Registry.Mappers.ResolveFor | src/main/java/tech/grove/birch/serialization/FluentMapper.java:85-91 | a null mode throws; an existing entry is returned and nothing is built; a missing mode is built once (configured with the defaults, date/time module registered) and stored for that mode alone, or the builder's error is thrown and nothing is stored |
| Registry.ResolveTwice | src/main/java/tech/grove/birch/serialization/FluentMapper.java:86-91 | a second resolve of the same mode returns the first's mapper; entries of other modes are unchanged |
| Accessors.Rethrown | src/main/java/tech/grove/birch/serialization/accessors/AbstractAccessor.java:57-58 | a JsonProcessingException is wrapped in a RuntimeException; any other exception passes through unchanged |
| Accessors.Released | src/main/java/tech/grove/birch/serialization/accessors/AbstractAccessor.java:54-60 | a successful conversion result passes through; a failure comes out rethrown |
| Accessors.Accessor.constructor | src/main/java/tech/grove/birch/serialization/accessors/AbstractAccessor.java:17-22 | an accessor owned by the factory, with a fresh, empty payload scope that has no default factory |
| Accessors.Accessor.Mapper | src/main/java/tech/grove/birch/serialization/accessors/AbstractAccessor.java:24-26 | the owning factory's registry resolution for the mode |
| Accessors.Accessor.Initialize | src/main/java/tech/grove/birch/serialization/accessors/AbstractAccessor.java:28-30 | a null payload throws IllegalArgumentException("value") and changes nothing; a non-null payload becomes the calling thread's and the same accessor is returned |
| Accessors.Accessor.ExecuteAndRelease | src/main/java/tech/grove/birch/serialization/accessors/AbstractAccessor.java:54-60 | the function sees the calling thread's payload (null when none); the payload is cleared on every exit path, including a throwing function; a JsonProcessingException comes out wrapped |
| Accessors.Accessor.Get | src/main/java/tech/grove/birch/serialization/accessors/AbstractAccessor.java:32-35 | returns the calling thread's payload and clears it |
| Accessors.Accessor.ToJson | src/main/java/tech/grove/birch/serialization/accessors/AbstractAccessor.java:37-52 | consumes the payload; a failure is rethrown and the text accessor is untouched; a null result reaches the text accessor, which refuses it; a value is stored in the factory's text accessor for the calling thread, which is returned; other threads' payloads are unchanged |
| Accessors.Accessor.ToNode | src/main/java/tech/grove/birch/serialization/accessors/AbstractAccessor.java:41-52 | as ToJson, into the factory's tree accessor |
| Accessors.Accessor.ToInstance | src/main/java/tech/grove/birch/serialization/accessors/AbstractAccessor.java:45-52 | as ToJson, into the factory's object accessor |
| Accessors.AccessorFactory.constructor | src/main/java/tech/grove/birch/serialization/creators/AccessorFactory.java:20-28 | the resolver is kept and none of the three accessors exists yet |
| Accessors.AccessorFactory.Mapper | src/main/java/tech/grove/birch/serialization/creators/AccessorFactory.java:30-32 | exactly what the resolver does for the mode |
| Accessors.AccessorFactory.LazyJson | src/main/java/tech/grove/birch/serialization/creators/AccessorFactory.java:46-48 | the text accessor is created, owned by this factory, only when none exists; afterwards the same accessor every time |
| Accessors.AccessorFactory.LazyNode | src/main/java/tech/grove/birch/serialization/creators/AccessorFactory.java:50-52 | as LazyJson, for the tree accessor |
| Accessors.AccessorFactory.LazyInstance | src/main/java/tech/grove/birch/serialization/creators/AccessorFactory.java:54-56 | as LazyJson, for the object accessor |
| Accessors.AccessorFactory.NewJson | src/main/java/tech/grove/birch/serialization/creators/AccessorFactory.java:34-36 | the one shared text accessor, now holding the payload for the calling thread; null throws IllegalArgumentException and no payload changes; the other accessors are untouched |
| Accessors.AccessorFactory.NewNode | src/main/java/tech/grove/birch/serialization/creators/AccessorFactory.java:38-40 | as NewJson, for the tree accessor |
| Accessors.AccessorFactory.NewInstance | src/main/java/tech/grove/birch/serialization/creators/AccessorFactory.java:42-44 | as NewJson, for the object accessor |
| Accessors.JsonToInstance | src/main/java/tech/grove/birch/serialization/accessors/AbstractAccessor.java:28-60 | a text-to-object-to-get chain: null text throws and resolves no mapper; otherwise the JSON mapper is resolved through the registry and the result is the engine's decoding with it, or its (rethrown) error; on success neither accessor keeps a payload for the calling thread; no other thread's payload changes |
| Accessors.Accessor.Pretty | src/main/java/tech/grove/birch/serialization/accessors/JsonAccessor.java:15-18 | `getPretty()` resolves the JSON mapper through the registry (building and storing it on first use), consumes the payload, and returns the engine's pretty text made with that mapper, a processing error wrapped |
| Accessors.Accessor.AsJson | src/main/java/tech/grove/birch/serialization/accessors/NodeAccessor.java:15-18 | `asJson()` of the tree accessor (and, alike, InstanceAccessor.java:15-17): the JSON mapper is resolved through the registry, and the payload written with it reaches the text accessor as ToJson states |
| Accessors.Accessor.AsNode | src/main/java/tech/grove/birch/serialization/accessors/JsonAccessor.java:20-23 | `asNode(type)` of the text accessor (and, alike, InstanceAccessor.java:19-22): the JSON mapper is resolved, and the tree the engine makes with it reaches the tree accessor as ToNode states |
| Accessors.Accessor.AsType | src/main/java/tech/grove/birch/serialization/accessors/JsonAccessor.java:25-33 | both `asType` overloads of the text accessor (and, alike, NodeAccessor.java:20-28): the JSON mapper is resolved, and the object the engine decodes with it reaches the object accessor as ToInstance states |
| Accessors.GetConsumes | src/main/java/tech/grove/birch/serialization/accessors/AbstractAccessor.java:28-35 | after initialize, the first get returns the payload and the second returns null |
| FluentMapper.MapperStarter.constructor | src/main/java/tech/grove/birch/serialization/FluentMapper.java:47-50 | a private empty registry and a factory that resolves through it |
| FluentMapper.MapperStarter.WithMapperSet | src/main/java/tech/grove/birch/serialization/FluentMapper.java:52-54 | a null mapper throws IllegalArgumentException("value") and registers nothing; otherwise the mapper becomes the mode's entry and the starter is returned |
| FluentMapper.MapperStarter.Json | src/main/java/tech/grove/birch/serialization/FluentMapper.java:56-58 | the private factory's text accessor, holding the payload for the calling thread |
| FluentMapper.MapperStarter.Node | src/main/java/tech/grove/birch/serialization/FluentMapper.java:60-62 | the private factory's tree accessor, holding the payload |
| FluentMapper.MapperStarter.Instance | src/main/java/tech/grove/birch/serialization/FluentMapper.java:64-66 | the private factory's object accessor, holding the payload |
| FluentMapper.SetThenResolve | src/main/java/tech/grove/birch/serialization/FluentMapper.java:79-91 | after withMapper(mode).set(m), resolving the mode returns m itself |
| ReflectorLogic.EffectivelyPrimitiveCases | src/main/java/tech/grove/birch/reflection/Reflector.java:19-39 | String, Integer, BigDecimal and UUID are effectively primitive whatever their flags; a plain Object, List or Map that is neither primitive nor an enum is not |
| ReflectorLogic.EffectivelyPrimitive | src/main/java/tech/grove/birch/reflection/Reflector.java:101-105 | defines the test: primitive, an enum, or one of the wrapper classes |
| ReflectorLogic.WrapperClass | src/main/java/tech/grove/birch/reflection/Reflector.java:113-117 | defines the test: the class is one of the seventeen listed wrapper and value classes |
| ReflectorLogic.MapLike | src/main/java/tech/grove/birch/reflection/Reflector.java:125-129 | defines the test: java.util.Map itself, or a class with it among its superclasses or interfaces |
| ReflectorLogic.IterableLike | src/main/java/tech/grove/birch/reflection/Reflector.java:131-135 | defines the test: java.lang.Iterable itself, or a class with it among its superclasses or interfaces |
| Reflector.ClassifyEach | src/main/java/tech/grove/birch/reflection/Reflector.java:101-123 | on one class, `isEffectivelyPrimitive()` answers exactly `isPrimitive() || isEnum() || isPrimitiveWrapper()`, none of them throws, and the slot is left empty |
| ReflectorLogic.SearchOrder | src/main/java/tech/grove/birch/reflection/Reflector.java:200-210 | the superclasses come first, nearest first, then the declaring class; the classes searched are exactly the chain and the interfaces of its classes |
| ReflectorLogic.InterfacesOfAllMember | src/main/java/tech/grove/birch/reflection/Reflector.java:203-204 | an interface is gathered exactly when one class of the list has it |
| ReflectorLogic.MethodsOfMember | src/main/java/tech/grove/birch/reflection/Reflector.java:211-212 | a method is gathered exactly when one class of the list declares it |
| ReflectorLogic.FirstAnnotationOfClasses | src/main/java/tech/grove/birch/reflection/Reflector.java:210-218 | over the declared methods of a list of classes, the search finds nothing exactly when no class declares a matching method carrying the annotation, and otherwise the annotation of such a method |
| ReflectorLogic.FindAnnotation | src/main/java/tech/grove/birch/reflection/Reflector.java:199-219 | null exactly when no class in the search order declares a method of the same name and parameter types carrying the annotation; otherwise that annotation of such a method |
| ReflectorLogic.OwnAnnotationFound | src/main/java/tech/grove/birch/reflection/Reflector.java:199-219 | a method declared by a loadable class and carrying the annotation is never missed by the search |
| ReflectorLogic.TrailingInterfacesRedundant | src/main/java/tech/grove/birch/reflection/Reflector.java:205-210 | appending the declaring class's interfaces after the chain's interfaces never changes the result |
| ReflectorLogic.FirstAnnotation | src/main/java/tech/grove/birch/reflection/Reflector.java:210-218 | the annotation of the first method with the same name and parameter types that carries one; null exactly when no such method carries it |
| ReflectorLogic.MethodsOfAppend | src/main/java/tech/grove/birch/reflection/Reflector.java:210-212 | flattening declared methods distributes over concatenated class lists |
| ReflectorLogic.FirstAnnotationAppend | src/main/java/tech/grove/birch/reflection/Reflector.java:207-218 | over concatenated streams the first match comes from the front part whenever that has one |
| ReflectorLogic.ClassesBeforeInterfaces | src/main/java/tech/grove/birch/reflection/Reflector.java:200-218 | when a superclass or the declaring class carries the annotation on a matching method, no interface is consulted |
| ReflectorLogic.SuperclassesBeforeDeclaringClass | src/main/java/tech/grove/birch/reflection/Reflector.java:200-218 | a matching annotated method in a superclass wins over the method's own annotation |
| ReflectorLogic.NothingFound | src/main/java/tech/grove/birch/reflection/Reflector.java:210-218 | with no matching annotated method anywhere in the search order, the result is null |
| ReflectorLogic.JsonName | src/main/java/tech/grove/birch/reflection/Reflector.java:221-236 | a non-empty @JsonProperty value found by the search is the name; otherwise "get" + name gives back the method name when it starts with "get"; otherwise the method name |
| ReflectorLogic.JsonNameExamples | src/main/java/tech/grove/birch/reflection/Reflector.java:226-231 | "getName" gives "Name", "get" gives "", "getget" gives "get", "name" stays |
| ReflectorLogic.LastIndexOf | src/main/java/tech/grove/birch/reflection/Reflector.java:172-174 | the last occurrence: the character is there and not after it; none exactly when it does not occur |
| ReflectorLogic.LastIndexOfAt | src/main/java/tech/grove/birch/reflection/Reflector.java:172-174 | an occurrence with none after it is the last occurrence |
| ReflectorLogic.GenericMatch | src/main/java/tech/grove/birch/reflection/Reflector.java:172-174 | none exactly when no '<' has a '>' after it; otherwise a '<' and a later '>' with no '>' after it and no '<' between them |
| ReflectorLogic.GenericParameter | src/main/java/tech/grove/birch/reflection/Reflector.java:172-176 | no match exactly when no '<' has a '>' after it; otherwise the text between the greedy match's '<' and '>', which holds no '<' |
| ReflectorLogic.ClassToString | src/main/java/tech/grove/birch/reflection/Reflector.java:181 | the text always ends with the class name, and is the bare name exactly for a primitive |
| ReflectorLogic.GenericMatchIsGreedy | src/main/java/tech/grove/birch/reflection/Reflector.java:172-176 | no match exactly when no '<' has a '>' after it; otherwise the match is the one the greedy `.*<(.*)>` selects (latest '<', then latest '>'), and every greedy match is it |
| ReflectorLogic.ExtractSuperclassGenericParameter | src/main/java/tech/grove/birch/reflection/Reflector.java:170-184 | no superclass throws NullPointerException; a non-matching superclass name throws "Unsupported super class: " and the class's toString; a captured name that cannot be loaded throws "Unknown class: " and the name; otherwise the loaded class |
| ReflectorLogic.GenericParameterOfShape | src/main/java/tech/grove/birch/reflection/Reflector.java:172-176 | for a name ending in '>', the captured group is everything after the last '<' up to that final '>', whatever precedes the '<' |
| ReflectorLogic.GenericParameterNested | src/main/java/tech/grove/birch/reflection/Reflector.java:172-176 | a nested parameter `Base<Outer<Inner>>` captures `Inner>`, keeping the stray '>' |
| ReflectorLogic.GenericParameterPair | src/main/java/tech/grove/birch/reflection/Reflector.java:172-176 | two parameters `Base<A, B>` are captured together as `A, B` |
| ReflectorLogic.GenericParameterPlain | src/main/java/tech/grove/birch/reflection/Reflector.java:172-174 | a superclass name without '>' does not match |
| Reflector.Accessor.constructor | src/main/java/tech/grove/birch/reflection/Reflector.java:260 | no thread has a subject |
| Reflector.Accessor.Initialize | src/main/java/tech/grove/birch/reflection/Reflector.java:263-269 | a non-null subject replaces the calling thread's; null leaves it unchanged |
| Reflector.Accessor.Close | src/main/java/tech/grove/birch/reflection/Reflector.java:281-284 | removes the calling thread's subject and no other |
| Reflector.TypeAccessor.constructor | src/main/java/tech/grove/birch/reflection/Reflector.java:260-261 | a fresh, empty subject slot |
| Reflector.TypeAccessor.Initialize | src/main/java/tech/grove/birch/reflection/Reflector.java:263-269 | sets a non-null subject for the calling thread, ignores null, returns the same accessor |
| Reflector.TypeAccessor.Get | src/main/java/tech/grove/birch/reflection/Reflector.java:95-99 | the subject (or null), and the slot is emptied |
| Reflector.TypeAccessor.IsEffectivelyPrimitive | src/main/java/tech/grove/birch/reflection/Reflector.java:101-105 | the classification of the subject; a missing subject throws NullPointerException; the slot is emptied |
| Reflector.TypeAccessor.IsPrimitive | src/main/java/tech/grove/birch/reflection/Reflector.java:107-111 | the subject's primitive flag; a missing subject throws; the slot is emptied |
| Reflector.TypeAccessor.IsPrimitiveWrapper | src/main/java/tech/grove/birch/reflection/Reflector.java:113-117 | membership in the wrapper set; a missing subject answers false, because the set lookup accepts null; the slot is emptied |
| Reflector.TypeAccessor.IsEnum | src/main/java/tech/grove/birch/reflection/Reflector.java:119-123 | the subject's enum flag; a missing subject throws; the slot is emptied |
| Reflector.TypeAccessor.IsMap | src/main/java/tech/grove/birch/reflection/Reflector.java:125-129 | the subject is, or inherits from, java.util.Map; a missing subject throws; the slot is emptied |
| Reflector.TypeAccessor.IsIterable | src/main/java/tech/grove/birch/reflection/Reflector.java:131-135 | the subject is, or inherits from, java.lang.Iterable; a missing subject throws; the slot is emptied |
| Reflector.TypeAccessor.IsArray | src/main/java/tech/grove/birch/reflection/Reflector.java:137-141 | the subject's array flag; a missing subject throws; the slot is emptied |
| Reflector.TypeAccessor.GetAnnotation | src/main/java/tech/grove/birch/reflection/Reflector.java:143-147 | the class's annotation of that type, or null; a missing subject throws; the slot is emptied |
| Reflector.TypeAccessor.HasAnnotation | src/main/java/tech/grove/birch/reflection/Reflector.java:149-151 | whether the class carries that annotation; the slot is emptied by the inner query |
| Reflector.TypeAccessor.ExtractSuperclassGenericParameter | src/main/java/tech/grove/birch/reflection/Reflector.java:170-184 | the pure extraction applied to the subject, the message built through get(); a missing subject throws; the slot is emptied |
| Reflector.MethodAccessor.constructor | src/main/java/tech/grove/birch/reflection/Reflector.java:260-261 | a fresh, empty subject slot |
| Reflector.MethodAccessor.Initialize | src/main/java/tech/grove/birch/reflection/Reflector.java:263-269 | sets a non-null method for the calling thread, ignores null, returns the same accessor |
| Reflector.MethodAccessor.GetAnnotation | src/main/java/tech/grove/birch/reflection/Reflector.java:189-193 | the search order's first matching annotation; a missing subject throws; the slot is emptied |
| Reflector.MethodAccessor.HasAnnotation | src/main/java/tech/grove/birch/reflection/Reflector.java:195-197 | whether the search finds the annotation; the slot is emptied |
| Reflector.MethodAccessor.JsonName | src/main/java/tech/grove/birch/reflection/Reflector.java:221-236 | the JSON name of the subject; a missing subject throws; the slot is emptied |
| Reflector.FieldAccessor.constructor | src/main/java/tech/grove/birch/reflection/Reflector.java:260-261 | a fresh, empty subject slot |
| Reflector.FieldAccessor.Initialize | src/main/java/tech/grove/birch/reflection/Reflector.java:263-269 | sets a non-null field for the calling thread, ignores null, returns the same accessor |
| Reflector.FieldAccessor.Get | src/main/java/tech/grove/birch/reflection/Reflector.java:241-245 | the field (or null), and the slot is emptied |
| Reflector.FieldAccessor.GetAnnotation | src/main/java/tech/grove/birch/reflection/Reflector.java:247-251 | the field's annotation of that type, or null; a missing subject throws; the slot is emptied |
| Reflector.FieldAccessor.HasAnnotation | src/main/java/tech/grove/birch/reflection/Reflector.java:253-255 | whether the field carries that annotation; the slot is emptied |
| Reflector.Reflector.constructor | src/main/java/tech/grove/birch/reflection/Reflector.java:50-52 | three fresh accessors, each with a fresh, empty subject slot |
| Reflector.Reflector.Type | src/main/java/tech/grove/birch/reflection/Reflector.java:81-83 | the shared type accessor, holding a non-null class for the calling thread |
| Reflector.Reflector.TypeByName | src/main/java/tech/grove/birch/reflection/Reflector.java:73-79 | a null name throws NullPointerException; an unknown name throws a RuntimeException wrapping ClassNotFoundException and sets nothing; a known name becomes the subject |
| Reflector.Reflector.Method | src/main/java/tech/grove/birch/reflection/Reflector.java:85-87 | the shared method accessor, holding a non-null method for the calling thread |
| Reflector.Reflector.Field | src/main/java/tech/grove/birch/reflection/Reflector.java:89-91 | the shared field accessor, holding a non-null field for the calling thread |
| Reflector.QueryConsumesSubject | src/main/java/tech/grove/birch/reflection/Reflector.java:143-151 | `type(c).hasAnnotation(a)` answers from c, and a following get sees null |
| Reflector.JsonNameOf | src/main/java/tech/grove/birch/reflection/Reflector.java:221-236 | `method(getter).jsonName()` is the pure JSON name, and the calling thread's slot is empty afterwards |

## Left out

- Jackson itself is not modelled: `readTree`, `readValue`, `writeValueAsString`, `treeToValue`, `convertValue` and `toPrettyString`. A conversion is a parameter that may return null or throw. `ObjectMapper` is a stand-in object holding a format and the few settings the library changes.
- Accessors.Accessor.AsJson: in the concrete accessors the JSON mapper is resolved inside the conversion function, after the payload has been read; the model resolves it just before. Both touch disjoint state and resolving JSON cannot fail, so the outcome is the same. The `type.cast` of `asNode` and the two `asType` overloads are part of the engine function. The same holds for `AsNode`, `AsType` and `Pretty`.
- MapperBuilders.MapperBuilder.Configured: a configurator that throws is modelled by the settings it leaves and the exception. Changes it makes to the mapper outside the modelled settings are not represented.
- `FluentMapper.Default` is reduced to the three settings that `CONFIGURATOR` changes and a single date/time module. The static `json`/`node`/`instance` entry points on the shared default factory are not modelled separately; they behave as `MapperStarter`'s do on a factory of its own.
- Concurrency is modelled as sequential calls. This covers `Lazy`'s `volatile` field and double-checked lock, and the atomicity of `ConcurrentHashMap.computeIfAbsent`. Threads are identities that every operation takes as a parameter.
- Accessors.AccessorFactory.LazyJson: the three `Lazy` fields of `AccessorFactory` are written inline as optional fields filled on first use, not as `LazyInit.Lazy` objects, because a Dafny function cannot allocate an object. `Lazy.get`'s null check cannot fire there, since construction never yields null.
- The `Lazy` test seams `getInstance`, `getFactory` and `getSyncRoot` are plain field reads and are not modelled.
- Registry.Mappers.constructor: a map passed in is kept as a value. Aliasing with the caller's map object is not modelled.
- Jackson.ObjectMapper.RegisterModule appends the module to a list. Jackson's skipping of an already registered module and its null check are not modelled.
- Java reflection, `Class.forName` and commons-lang `ClassUtils` are replaced by descriptor records and a map of loadable classes. The descriptor's ordered lists stand for `getAllSuperclasses`, `getAllInterfaces` and `getDeclaredMethods`. Class identity is by name.
- `Class.getAnnotation` for types and fields is the descriptor's annotation map. How Java fills it (`@Inherited`, repeatable annotations) is not modelled.
- `TypeAccessor.newInstance` (src/main/java/tech/grove/birch/reflection/Reflector.java:154-168) is a reflective constructor call and is not modelled.
- `Reflector.cast` and `getType` are unchecked casts with no behaviour.
- The `primitives` set (src/main/java/tech/grove/birch/reflection/Reflector.java:20, 41-47) is filled but never read, so it is not modelled.
- ReflectorLogic.GenericParameter: the `.` of `.*<(.*)>` does not match line terminators. This is not modelled, since Java type names contain none.
- ReflectorLogic.JsonName: `Strings.isNullOrEmpty` is an emptiness test here, because an annotation's `value()` is never null.
- `MapperMode.java` is not part of this model. The modes are JSON, YAML and any other constant, printed by its name.
- Threading.ThreadLocalScope.Get: `ThreadLocal.set(null)` after a null factory product is modelled as removing the thread's key. Both make `get` and `getRaw` answer null.
- `Test.java` is a benchmark harness with timing, random data and console output, and is not modelled.
- `SerializationApi`, `MapperResolver` and the `Throwing*` delegate interfaces declare no behaviour and are not modelled.
