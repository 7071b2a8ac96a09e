/**
 * The fluent reflection entry points of Reflector.java. Each of `type`,
 * `method` and `field` stores its subject in a thread-local slot of a shared
 * accessor and returns that accessor; every query then reads the calling
 * thread's subject and removes it on the way out (`try (var x = accessValue())`),
 * so a subject serves exactly one query. The decisions the queries take are
 * the functions of `ReflectorLogic`.
 */
module Reflector {
  import opened Wrappers
  import opened Threading
  import opened ReflectorLogic

  /** `Accessor<V, A>`: one subject per thread, in `ThreadLocal<V> value`. */
  class Accessor<V> {
    /** The thread-local slot; a thread without an entry reads null. */
    var value: map<ThreadId, V>

    constructor ()
      ensures value == map[]
    {
      value := map[];
    }

    /** `ValueAccessor.get()` on thread `tid`. */
    function Current(tid: ThreadId): Option<V>
      reads this
    {
      if tid in value then Some(value[tid]) else None
    }

    /** `initialize(value)`: a non-null subject replaces this thread's; null leaves it as it was. */
    method Initialize(tid: ThreadId, v: Option<V>)
      modifies this
      ensures v.Some? ==> value == old(value)[tid := v.value]
      ensures v.None? ==> value == old(value)
    {
      if v.Some? {
        value := value[tid := v.value];
      }
    }

    /** `ValueAccessor.close()`: removes this thread's subject. */
    method Close(tid: ThreadId)
      modifies this
      ensures value == old(value) - {tid}
    {
      value := value - {tid};
    }
  }

  /** A query on a subject that is dereferenced: null throws NullPointerException. */
  function Queried<V, R>(subject: Option<V>, query: V -> R): Result<R>
  {
    if subject.None? then Failure(NullPointer) else Success(query(subject.value))
  }

  /** `TypeAccessor`: queries about a class. */
  class TypeAccessor {
    const subject: Accessor<ClassInfo>

    constructor ()
      ensures fresh(subject) && subject.value == map[]
    {
      subject := new Accessor();
    }

    /** `initialize(type)`, returning this accessor. */
    method Initialize(tid: ThreadId, c: Option<ClassInfo>) returns (r: TypeAccessor)
      modifies subject
      ensures r == this
      ensures c.Some? ==> subject.value == old(subject.value)[tid := c.value]
      ensures c.None? ==> subject.value == old(subject.value)
    {
      subject.Initialize(tid, c);
      r := this;
    }

    /** `get()`: the subject, or null; either way the slot is emptied. */
    method Get(tid: ThreadId) returns (r: Option<ClassInfo>)
      modifies subject
      ensures r == old(subject.Current(tid))
      ensures subject.value == old(subject.value) - {tid}
    {
      r := subject.Current(tid);
      subject.Close(tid);
    }

    /** `isEffectivelyPrimitive()`. */
    method IsEffectivelyPrimitive(tid: ThreadId) returns (r: Result<bool>)
      modifies subject
      ensures r == Queried(old(subject.Current(tid)), EffectivelyPrimitive)
      ensures subject.value == old(subject.value) - {tid}
    {
      var c := subject.Current(tid);
      r := if c.None? then Failure(NullPointer)
           else Success(c.value.isPrimitive || c.value.isEnum || c.value.name in PrimitiveWrappers);
      subject.Close(tid);
    }

    /** `isPrimitive()`. */
    method IsPrimitive(tid: ThreadId) returns (r: Result<bool>)
      modifies subject
      ensures r == Queried(old(subject.Current(tid)), (c: ClassInfo) => c.isPrimitive)
      ensures subject.value == old(subject.value) - {tid}
    {
      var c := subject.Current(tid);
      r := if c.None? then Failure(NullPointer) else Success(c.value.isPrimitive);
      subject.Close(tid);
    }

    /**
     * `isPrimitiveWrapper()`: a set lookup, which accepts null, so a missing
     * subject answers false instead of throwing.
     */
    method IsPrimitiveWrapper(tid: ThreadId) returns (r: bool)
      modifies subject
      ensures r <==> old(subject.Current(tid)).Some? && WrapperClass(old(subject.Current(tid)).value)
      ensures subject.value == old(subject.value) - {tid}
    {
      var c := subject.Current(tid);
      r := c.Some? && c.value.name in PrimitiveWrappers;
      subject.Close(tid);
    }

    /** `isEnum()`. */
    method IsEnum(tid: ThreadId) returns (r: Result<bool>)
      modifies subject
      ensures r == Queried(old(subject.Current(tid)), (c: ClassInfo) => c.isEnum)
      ensures subject.value == old(subject.value) - {tid}
    {
      var c := subject.Current(tid);
      r := if c.None? then Failure(NullPointer) else Success(c.value.isEnum);
      subject.Close(tid);
    }

    /** `isMap()`. */
    method IsMap(tid: ThreadId) returns (r: Result<bool>)
      modifies subject
      ensures r == Queried(old(subject.Current(tid)), MapLike)
      ensures subject.value == old(subject.value) - {tid}
    {
      var c := subject.Current(tid);
      r := if c.None? then Failure(NullPointer) else Success(MapLike(c.value));
      subject.Close(tid);
    }

    /** `isIterable()`. */
    method IsIterable(tid: ThreadId) returns (r: Result<bool>)
      modifies subject
      ensures r == Queried(old(subject.Current(tid)), IterableLike)
      ensures subject.value == old(subject.value) - {tid}
    {
      var c := subject.Current(tid);
      r := if c.None? then Failure(NullPointer) else Success(IterableLike(c.value));
      subject.Close(tid);
    }

    /** `isArray()`. */
    method IsArray(tid: ThreadId) returns (r: Result<bool>)
      modifies subject
      ensures r == Queried(old(subject.Current(tid)), (c: ClassInfo) => c.isArray)
      ensures subject.value == old(subject.value) - {tid}
    {
      var c := subject.Current(tid);
      r := if c.None? then Failure(NullPointer) else Success(c.value.isArray);
      subject.Close(tid);
    }

    /** `getAnnotation(annotationClass)`: the class's annotation of that type, or null. */
    method GetAnnotation(tid: ThreadId, annotationType: ClassName) returns (r: Result<Option<Annotation>>)
      modifies subject
      ensures old(subject.Current(tid)).None? ==> r == Failure(NullPointer)
      ensures old(subject.Current(tid)).Some? ==>
                var c := old(subject.Current(tid)).value;
                r.Success? && (r.value.Some? <==> annotationType in c.annotations) &&
                (r.value.Some? ==> r.value.value == c.annotations[annotationType])
      ensures subject.value == old(subject.value) - {tid}
    {
      var c := subject.Current(tid);
      if c.None? {
        r := Failure(NullPointer);
      } else if annotationType in c.value.annotations {
        r := Success(Some(c.value.annotations[annotationType]));
      } else {
        r := Success(None);
      }
      subject.Close(tid);
    }

    /** `hasAnnotation(annotationClass)`: `getAnnotation(...) != null`. */
    method HasAnnotation(tid: ThreadId, annotationType: ClassName) returns (r: Result<bool>)
      modifies subject
      ensures r == Queried(old(subject.Current(tid)), (c: ClassInfo) => annotationType in c.annotations)
      ensures subject.value == old(subject.value) - {tid}
    {
      var a := GetAnnotation(tid, annotationType);
      r := if a.Failure? then Failure(a.error) else Success(a.value.Some?);
    }

    /**
     * `extractSuperclassGenericParameter()`: the class named by the pattern's
     * group in the superclass's type name. On a mismatch the message is built
     * with `get()`, which reads the subject (still present) and empties the slot
     * before the outer `close()` does so again.
     */
    method ExtractSuperclassGenericParameter(tid: ThreadId, cp: ClassPath) returns (r: Result<ClassInfo>)
      modifies subject
      ensures old(subject.Current(tid)).None? ==> r == Failure(NullPointer)
      ensures old(subject.Current(tid)).Some? ==>
                r == ReflectorLogic.ExtractSuperclassGenericParameter(cp, old(subject.Current(tid)).value)
      ensures subject.value == old(subject.value) - {tid}
    {
      var c := subject.Current(tid);
      if c.None? {
        r := Failure(NullPointer);
      } else if c.value.genericSuperclass.None? {
        r := Failure(NullPointer);
      } else {
        var found := GenericParameter(c.value.genericSuperclass.value);
        if found.None? {
          var shown := Get(tid);
          r := Failure(Runtime("Unsupported super class: " + (if shown.Some? then ClassToString(shown.value) else "null")));
        } else if found.value in cp {
          r := Success(cp[found.value]);
        } else {
          r := Failure(Runtime("Unknown class: " + found.value));
        }
      }
      subject.Close(tid);
    }
  }

  /** `MethodAccessor`: the annotation search and JSON name of a method. */
  class MethodAccessor {
    const subject: Accessor<MethodInfo>

    constructor ()
      ensures fresh(subject) && subject.value == map[]
    {
      subject := new Accessor();
    }

    /** `initialize(method)`, returning this accessor. */
    method Initialize(tid: ThreadId, m: Option<MethodInfo>) returns (r: MethodAccessor)
      modifies subject
      ensures r == this
      ensures m.Some? ==> subject.value == old(subject.value)[tid := m.value]
      ensures m.None? ==> subject.value == old(subject.value)
    {
      subject.Initialize(tid, m);
      r := this;
    }

    /**
     * `getAnnotation(annotationClass)`: the first annotation of that type on a
     * method of the same signature along the search order; a missing subject
     * throws when its declaring class is asked for.
     */
    method GetAnnotation(tid: ThreadId, cp: ClassPath, annotationType: ClassName) returns (r: Result<Option<Annotation>>)
      modifies subject
      ensures r == Queried(old(subject.Current(tid)), (m: MethodInfo) => FindAnnotation(cp, m, annotationType))
      ensures subject.value == old(subject.value) - {tid}
    {
      var m := subject.Current(tid);
      r := if m.None? then Failure(NullPointer) else Success(FindAnnotation(cp, m.value, annotationType));
      subject.Close(tid);
    }

    /** `hasAnnotation(annotationClass)`. */
    method HasAnnotation(tid: ThreadId, cp: ClassPath, annotationType: ClassName) returns (r: Result<bool>)
      modifies subject
      ensures r == Queried(old(subject.Current(tid)), (m: MethodInfo) => FindAnnotation(cp, m, annotationType).Some?)
      ensures subject.value == old(subject.value) - {tid}
    {
      var a := GetAnnotation(tid, cp, annotationType);
      r := if a.Failure? then Failure(a.error) else Success(a.value.Some?);
    }

    /** `jsonName()`. */
    method JsonName(tid: ThreadId, cp: ClassPath) returns (r: Result<string>)
      modifies subject
      ensures r == Queried(old(subject.Current(tid)), (m: MethodInfo) => ReflectorLogic.JsonName(cp, m))
      ensures subject.value == old(subject.value) - {tid}
    {
      var m := subject.Current(tid);
      r := if m.None? then Failure(NullPointer) else Success(ReflectorLogic.JsonName(cp, m.value));
      subject.Close(tid);
    }
  }

  /** `FieldAccessor`: a field and its annotations. */
  class FieldAccessor {
    const subject: Accessor<FieldInfo>

    constructor ()
      ensures fresh(subject) && subject.value == map[]
    {
      subject := new Accessor();
    }

    /** `initialize(field)`, returning this accessor. */
    method Initialize(tid: ThreadId, f: Option<FieldInfo>) returns (r: FieldAccessor)
      modifies subject
      ensures r == this
      ensures f.Some? ==> subject.value == old(subject.value)[tid := f.value]
      ensures f.None? ==> subject.value == old(subject.value)
    {
      subject.Initialize(tid, f);
      r := this;
    }

    /** `get()`. */
    method Get(tid: ThreadId) returns (r: Option<FieldInfo>)
      modifies subject
      ensures r == old(subject.Current(tid))
      ensures subject.value == old(subject.value) - {tid}
    {
      r := subject.Current(tid);
      subject.Close(tid);
    }

    /** `getAnnotation(annotationClass)`. */
    method GetAnnotation(tid: ThreadId, annotationType: ClassName) returns (r: Result<Option<Annotation>>)
      modifies subject
      ensures old(subject.Current(tid)).None? ==> r == Failure(NullPointer)
      ensures old(subject.Current(tid)).Some? ==>
                var f := old(subject.Current(tid)).value;
                r.Success? && (r.value.Some? <==> annotationType in f.annotations) &&
                (r.value.Some? ==> r.value.value == f.annotations[annotationType])
      ensures subject.value == old(subject.value) - {tid}
    {
      var f := subject.Current(tid);
      if f.None? {
        r := Failure(NullPointer);
      } else if annotationType in f.value.annotations {
        r := Success(Some(f.value.annotations[annotationType]));
      } else {
        r := Success(None);
      }
      subject.Close(tid);
    }

    /** `hasAnnotation(annotationClass)`. */
    method HasAnnotation(tid: ThreadId, annotationType: ClassName) returns (r: Result<bool>)
      modifies subject
      ensures r == Queried(old(subject.Current(tid)), (f: FieldInfo) => annotationType in f.annotations)
      ensures subject.value == old(subject.value) - {tid}
    {
      var a := GetAnnotation(tid, annotationType);
      r := if a.Failure? then Failure(a.error) else Success(a.value.Some?);
    }
  }

  /** The three shared accessors `TYPE`, `METHOD` and `FIELD`, and the static entry points. */
  class Reflector {
    const typeAccessor: TypeAccessor
    const methodAccessor: MethodAccessor
    const fieldAccessor: FieldAccessor

    constructor ()
      ensures fresh(typeAccessor) && fresh(typeAccessor.subject) && typeAccessor.subject.value == map[]
      ensures fresh(methodAccessor) && fresh(methodAccessor.subject) && methodAccessor.subject.value == map[]
      ensures fresh(fieldAccessor) && fresh(fieldAccessor.subject) && fieldAccessor.subject.value == map[]
    {
      typeAccessor := new TypeAccessor();
      methodAccessor := new MethodAccessor();
      fieldAccessor := new FieldAccessor();
    }

    /** `type(Class)`. */
    method Type(tid: ThreadId, c: Option<ClassInfo>) returns (r: TypeAccessor)
      modifies typeAccessor.subject
      ensures r == typeAccessor
      ensures c.Some? ==> r.subject.value == old(r.subject.value)[tid := c.value]
      ensures c.None? ==> r.subject.value == old(r.subject.value)
    {
      r := typeAccessor.Initialize(tid, c);
    }

    /**
     * `type(String)`: `Class.forName` by name; a null name throws
     * NullPointerException, an unknown one a RuntimeException wrapping
     * ClassNotFoundException, and a loaded class becomes the subject.
     */
    method TypeByName(tid: ThreadId, cp: ClassPath, name: Option<string>) returns (r: Result<TypeAccessor>)
      modifies typeAccessor.subject
      ensures name.None? ==> r == Failure(NullPointer)
      ensures name.Some? && name.value !in cp ==> r == Failure(Wrapped(ClassNotFound(name.value)))
      ensures name.Some? && name.value in cp ==>
                r == Success(typeAccessor) &&
                typeAccessor.subject.value == old(typeAccessor.subject.value)[tid := cp[name.value]]
      ensures r.Failure? ==> typeAccessor.subject.value == old(typeAccessor.subject.value)
    {
      if name.None? {
        return Failure(NullPointer);
      }
      if name.value !in cp {
        return Failure(Wrapped(ClassNotFound(name.value)));
      }
      var t := Type(tid, Some(cp[name.value]));
      r := Success(t);
    }

    /** `method(Method)`. */
    method Method(tid: ThreadId, m: Option<MethodInfo>) returns (r: MethodAccessor)
      modifies methodAccessor.subject
      ensures r == methodAccessor
      ensures m.Some? ==> r.subject.value == old(r.subject.value)[tid := m.value]
      ensures m.None? ==> r.subject.value == old(r.subject.value)
    {
      r := methodAccessor.Initialize(tid, m);
    }

    /** `field(Field)`. */
    method Field(tid: ThreadId, f: Option<FieldInfo>) returns (r: FieldAccessor)
      modifies fieldAccessor.subject
      ensures r == fieldAccessor
      ensures f.Some? ==> r.subject.value == old(r.subject.value)[tid := f.value]
      ensures f.None? ==> r.subject.value == old(r.subject.value)
    {
      r := fieldAccessor.Initialize(tid, f);
    }
  }

  /**
   * `type(c).hasAnnotation(a)` and then `get()` on the same thread: the query
   * answers from `c` and consumes it, so the following `get()` sees null.
   */
  method QueryConsumesSubject(reflector: Reflector, tid: ThreadId, c: ClassInfo, a: ClassName)
    returns (has: Result<bool>, after: Option<ClassInfo>)
    modifies reflector.typeAccessor.subject
    ensures has == Success(a in c.annotations)
    ensures after == None
    ensures reflector.typeAccessor.subject.value == old(reflector.typeAccessor.subject.value) - {tid}
  {
    var t := reflector.Type(tid, Some(c));
    has := t.HasAnnotation(tid, a);
    after := t.Get(tid);
  }

  /**
   * The four classification queries, each on a fresh `type(c)` since a query
   * consumes its subject: `isEffectivelyPrimitive()` answers exactly
   * `isPrimitive() || isEnum() || isPrimitiveWrapper()`, none of them throws
   * for a non-null class, and the calling thread's slot is empty afterwards.
   */
  method ClassifyEach(reflector: Reflector, tid: ThreadId, c: ClassInfo)
    returns (effective: Result<bool>, primitive: Result<bool>, isEnum: Result<bool>, wrapper: bool)
    modifies reflector.typeAccessor.subject
    ensures effective.Success? && primitive.Success? && isEnum.Success?
    ensures effective.value <==> primitive.value || isEnum.value || wrapper
    ensures reflector.typeAccessor.subject.value == old(reflector.typeAccessor.subject.value) - {tid}
  {
    var t := reflector.Type(tid, Some(c));
    effective := t.IsEffectivelyPrimitive(tid);
    t := reflector.Type(tid, Some(c));
    primitive := t.IsPrimitive(tid);
    t := reflector.Type(tid, Some(c));
    isEnum := t.IsEnum(tid);
    t := reflector.Type(tid, Some(c));
    wrapper := t.IsPrimitiveWrapper(tid);
  }

  /**
   * `method(getter).jsonName()`: the name computed from the getter, with the
   * calling thread's slot empty afterwards and other threads' subjects kept.
   */
  method JsonNameOf(reflector: Reflector, tid: ThreadId, cp: ClassPath, getter: MethodInfo) returns (r: Result<string>)
    modifies reflector.methodAccessor.subject
    ensures r == Success(ReflectorLogic.JsonName(cp, getter))
    ensures reflector.methodAccessor.subject.value == old(reflector.methodAccessor.subject.value) - {tid}
  {
    var m := reflector.Method(tid, Some(getter));
    r := m.JsonName(tid, cp);
  }
}
