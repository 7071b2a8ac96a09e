/**
 * The decisions Reflector.java takes about a class, a method or a field, over
 * abstract class descriptors instead of `java.lang.Class`: the "effectively
 * primitive" test, the other classifications, the annotation search through
 * superclasses and interfaces, the JSON name of a getter, and the extraction
 * of a superclass's generic parameter by the pattern `.*<(.*)>`.
 */
module ReflectorLogic {
  import opened Wrappers

  /** A fully qualified class name; one class per name. */
  type ClassName = string

  /** An annotation instance: its type and its `value()` element. */
  datatype Annotation = Annotation(annotationType: ClassName, value: string)

  /** A `java.lang.reflect.Method`. */
  datatype MethodInfo = MethodInfo(
    name: string,
    parameterTypes: seq<ClassName>,
    declaringClass: ClassName,
    annotations: map<ClassName, Annotation>)   // getDeclaredAnnotation, by annotation type

  /** A `java.lang.reflect.Field`. */
  datatype FieldInfo = FieldInfo(name: string, annotations: map<ClassName, Annotation>)

  /** A `java.lang.Class`: kind flags, name, ancestors, interfaces, members. */
  datatype ClassInfo = ClassInfo(
    name: ClassName,
    isPrimitive: bool,
    isEnum: bool,
    isArray: bool,
    isInterface: bool,
    superclasses: seq<ClassName>,              // ClassUtils.getAllSuperclasses: nearest first
    interfaces: seq<ClassName>,                // ClassUtils.getAllInterfaces
    declaredMethods: seq<MethodInfo>,          // getDeclaredMethods
    annotations: map<ClassName, Annotation>,   // getAnnotation, by annotation type
    genericSuperclass: Option<string>)         // getGenericSuperclass().getTypeName(); None: no superclass

  /** The classes that `Class.forName` can load, by name. */
  type ClassPath = map<ClassName, ClassInfo>

  // ---------------------------------------------------------------------------
  // Classification

  /** The fixed set `primitiveWrappers`. */
  const PrimitiveWrappers: set<ClassName> := {
    "java.lang.String", "java.lang.Boolean", "java.lang.Character", "java.lang.Byte",
    "java.lang.Short", "java.lang.Integer", "java.lang.Long", "java.lang.Float",
    "java.lang.Double", "java.lang.Void", "java.time.Duration", "java.time.LocalDateTime",
    "java.time.LocalDate", "java.time.Instant", "java.math.BigDecimal", "java.time.Period",
    "java.util.UUID"
  }

  /** `isPrimitiveWrapper`: membership in the fixed set. */
  predicate WrapperClass(c: ClassInfo)
  {
    c.name in PrimitiveWrappers
  }

  /** `isEffectivelyPrimitive`: a primitive, an enum, or one of the wrapper classes. */
  predicate EffectivelyPrimitive(c: ClassInfo)
  {
    c.isPrimitive || c.isEnum || WrapperClass(c)
  }

  /** `target.class.isAssignableFrom(c)`: `c` is `target` or has it as an ancestor. */
  predicate AssignableTo(c: ClassInfo, target: ClassName)
  {
    c.name == target || target in c.superclasses || target in c.interfaces
  }

  /** `isMap`. */
  predicate MapLike(c: ClassInfo)
  {
    AssignableTo(c, "java.util.Map")
  }

  /** `isIterable`. */
  predicate IterableLike(c: ClassInfo)
  {
    AssignableTo(c, "java.lang.Iterable")
  }

  /**
   * `String`, the boxed numbers and the other listed value classes pass
   * `isEffectivelyPrimitive`, while a plain class that is neither primitive
   * nor an enum and is not listed does not.
   */
  lemma EffectivelyPrimitiveCases(c: ClassInfo)
    ensures c.name in {"java.lang.String", "java.lang.Integer", "java.math.BigDecimal", "java.util.UUID"} ==>
              EffectivelyPrimitive(c)
    ensures !c.isPrimitive && !c.isEnum && c.name in {"java.lang.Object", "java.util.List", "java.util.Map"} ==>
              !EffectivelyPrimitive(c)
  {
  }

  // ---------------------------------------------------------------------------
  // The method-annotation search of MethodAccessor.getAnnotation

  function Superclasses(cp: ClassPath, c: ClassName): seq<ClassName>
  {
    if c in cp then cp[c].superclasses else []
  }

  function Interfaces(cp: ClassPath, c: ClassName): seq<ClassName>
  {
    if c in cp then cp[c].interfaces else []
  }

  function DeclaredMethods(cp: ClassPath, c: ClassName): seq<MethodInfo>
  {
    if c in cp then cp[c].declaredMethods else []
  }

  /** The interfaces of each class of `cs`, concatenated in order (the `flatMap`). */
  function InterfacesOfAll(cp: ClassPath, cs: seq<ClassName>): seq<ClassName>
  {
    if cs == [] then [] else Interfaces(cp, cs[0]) + InterfacesOfAll(cp, cs[1..])
  }

  /** The declared methods of each class of `cs`, concatenated in order. */
  function MethodsOf(cp: ClassPath, cs: seq<ClassName>): seq<MethodInfo>
  {
    if cs == [] then [] else DeclaredMethods(cp, cs[0]) + MethodsOf(cp, cs[1..])
  }

  /** The superclasses of the declaring class, followed by the declaring class itself. */
  function ClassChain(cp: ClassPath, declaring: ClassName): seq<ClassName>
  {
    Superclasses(cp, declaring) + [declaring]
  }

  /** A class is among the interfaces gathered from `cs` exactly when one class of `cs` has it. */
  lemma {:induction false} InterfacesOfAllMember(cp: ClassPath, cs: seq<ClassName>, i: ClassName)
    ensures i in InterfacesOfAll(cp, cs) <==> exists c :: c in cs && i in Interfaces(cp, c)
  {
    if cs != [] {
      InterfacesOfAllMember(cp, cs[1..], i);
      assert forall c :: c in cs <==> c == cs[0] || c in cs[1..];
    }
  }

  /** A method is among those gathered from `cs` exactly when one class of `cs` declares it. */
  lemma {:induction false} MethodsOfMember(cp: ClassPath, cs: seq<ClassName>, m: MethodInfo)
    ensures m in MethodsOf(cp, cs) <==> exists c :: c in cs && m in DeclaredMethods(cp, c)
  {
    if cs != [] {
      MethodsOfMember(cp, cs[1..], m);
      assert forall c :: c in cs <==> c == cs[0] || c in cs[1..];
    }
  }

  /**
   * The order in which classes are searched: every superclass, the declaring
   * class, the interfaces of each of those in turn, and last the declaring
   * class's interfaces. The superclasses come first, nearest first, then the
   * declaring class; the classes searched are exactly those of the chain and
   * their interfaces.
   */
  function SearchOrder(cp: ClassPath, declaring: ClassName): (r: seq<ClassName>)
    ensures |r| > |Superclasses(cp, declaring)|
    ensures r[..|Superclasses(cp, declaring)|] == Superclasses(cp, declaring)
    ensures r[|Superclasses(cp, declaring)|] == declaring
    ensures forall c :: c in r <==>
              c in ClassChain(cp, declaring) || exists k :: k in ClassChain(cp, declaring) && c in Interfaces(cp, k)
  {
    var chain := ClassChain(cp, declaring);
    var r := chain + InterfacesOfAll(cp, chain) + Interfaces(cp, declaring);
    assert r[..|Superclasses(cp, declaring)|] == Superclasses(cp, declaring);
    assert forall c :: c in r <==>
             c in chain || exists k :: k in chain && c in Interfaces(cp, k)
    by {
      forall c ensures c in r <==> c in chain || exists k :: k in chain && c in Interfaces(cp, k) {
        InterfacesOfAllMember(cp, chain, c);
        assert declaring in chain;
      }
    }
    r
  }

  /** The stream filter: same name and identical parameter types. */
  predicate SameSignature(m: MethodInfo, target: MethodInfo)
  {
    m.name == target.name && m.parameterTypes == target.parameterTypes
  }

  /** `m` passes the filter and carries an annotation of type `annotationType`. */
  predicate Carries(m: MethodInfo, target: MethodInfo, annotationType: ClassName)
  {
    SameSignature(m, target) && annotationType in m.annotations
  }

  /** Index `i` holds the first method of `ms` that carries the annotation. */
  ghost predicate FirstCarrier(ms: seq<MethodInfo>, target: MethodInfo, annotationType: ClassName, i: int)
  {
    0 <= i < |ms| && Carries(ms[i], target, annotationType) &&
    forall k :: 0 <= k < i ==> !Carries(ms[k], target, annotationType)
  }

  /**
   * `filter(signature).map(getDeclaredAnnotation).filter(nonNull).findFirst()`:
   * the annotation of the first method of `ms` that matches the signature and
   * carries one; null when no method does.
   */
  function FirstAnnotation(ms: seq<MethodInfo>, target: MethodInfo, annotationType: ClassName): (r: Option<Annotation>)
    ensures r.None? <==> forall i :: 0 <= i < |ms| ==> !Carries(ms[i], target, annotationType)
    ensures r.Some? ==>
              exists i :: FirstCarrier(ms, target, annotationType, i) && r.value == ms[i].annotations[annotationType]
  {
    if ms == [] then None
    else if Carries(ms[0], target, annotationType) then
      assert FirstCarrier(ms, target, annotationType, 0);
      Some(ms[0].annotations[annotationType])
    else
      var r := FirstAnnotation(ms[1..], target, annotationType);
      assert r.Some? ==>
               exists i :: FirstCarrier(ms, target, annotationType, i) && r.value == ms[i].annotations[annotationType]
      by {
        if r.Some? {
          var i :| FirstCarrier(ms[1..], target, annotationType, i) &&
                   r.value == ms[1..][i].annotations[annotationType];
          assert FirstCarrier(ms, target, annotationType, i + 1);
        }
      }
      r
  }

  /**
   * The first-match search over the methods of classes `cs`, read per class:
   * null exactly when no class of `cs` declares a method carrying the
   * annotation, and otherwise the annotation of a method one of them declares.
   */
  lemma FirstAnnotationOfClasses(cp: ClassPath, cs: seq<ClassName>, target: MethodInfo, a: ClassName)
    ensures FirstAnnotation(MethodsOf(cp, cs), target, a).None? <==>
              forall c, m :: c in cs && m in DeclaredMethods(cp, c) ==> !Carries(m, target, a)
    ensures FirstAnnotation(MethodsOf(cp, cs), target, a).Some? ==>
              exists c, m :: c in cs && m in DeclaredMethods(cp, c) && Carries(m, target, a) &&
                FirstAnnotation(MethodsOf(cp, cs), target, a).value == m.annotations[a]
  {
    var ms := MethodsOf(cp, cs);
    var r := FirstAnnotation(ms, target, a);
    if r.None? {
      forall c, m | c in cs && m in DeclaredMethods(cp, c) ensures !Carries(m, target, a) {
        MethodsOfMember(cp, cs, m);
        var i :| 0 <= i < |ms| && ms[i] == m;
      }
    } else {
      var i :| FirstCarrier(ms, target, a, i) && r.value == ms[i].annotations[a];
      MethodsOfMember(cp, cs, ms[i]);
      var c :| c in cs && ms[i] in DeclaredMethods(cp, c);
      assert c in cs && ms[i] in DeclaredMethods(cp, c) && Carries(ms[i], target, a);
    }
  }

  /**
   * `getAnnotation(method, annotationClass)`, the private search: null exactly
   * when no searched class declares a method of the same signature carrying
   * the annotation; otherwise the annotation of such a method.
   */
  function FindAnnotation(cp: ClassPath, target: MethodInfo, annotationType: ClassName): (r: Option<Annotation>)
    ensures r.None? <==>
              forall c, m :: c in SearchOrder(cp, target.declaringClass) && m in DeclaredMethods(cp, c) ==>
                !Carries(m, target, annotationType)
    ensures r.Some? ==>
              exists c, m :: c in SearchOrder(cp, target.declaringClass) && m in DeclaredMethods(cp, c) &&
                Carries(m, target, annotationType) && r.value == m.annotations[annotationType]
  {
    FirstAnnotationOfClasses(cp, SearchOrder(cp, target.declaringClass), target, annotationType);
    FirstAnnotation(MethodsOf(cp, SearchOrder(cp, target.declaringClass)), target, annotationType)
  }

  /**
   * A method's own annotation is never missed: when the declaring class is
   * loadable and declares the method, and the method carries the annotation,
   * the search finds one (perhaps a superclass's, which comes first).
   */
  lemma OwnAnnotationFound(cp: ClassPath, target: MethodInfo, a: ClassName)
    requires target.declaringClass in cp && target in cp[target.declaringClass].declaredMethods
    requires a in target.annotations
    ensures FindAnnotation(cp, target, a).Some?
  {
    var d := target.declaringClass;
    var order := SearchOrder(cp, d);
    assert order[|Superclasses(cp, d)|] == d;
    assert d in order && target in DeclaredMethods(cp, d) && Carries(target, target, a);
  }

  /**
   * The trailing interfaces of the declaring class in the search order are
   * already among the chain's interfaces, so they never change the result.
   */
  lemma TrailingInterfacesRedundant(cp: ClassPath, target: MethodInfo, a: ClassName)
    ensures var chain := ClassChain(cp, target.declaringClass);
            FindAnnotation(cp, target, a) == FirstAnnotation(MethodsOf(cp, chain + InterfacesOfAll(cp, chain)), target, a)
  {
    var d := target.declaringClass;
    var chain := ClassChain(cp, d);
    var front := chain + InterfacesOfAll(cp, chain);
    var back := Interfaces(cp, d);
    assert SearchOrder(cp, d) == front + back;
    MethodsOfAppend(cp, front, back);
    FirstAnnotationAppend(MethodsOf(cp, front), MethodsOf(cp, back), target, a);
    if FirstAnnotation(MethodsOf(cp, front), target, a).None? {
      forall m | m in MethodsOf(cp, back) ensures !Carries(m, target, a) {
        MethodsOfMember(cp, back, m);
        var i :| i in back && m in DeclaredMethods(cp, i);
        assert d in chain;
        InterfacesOfAllMember(cp, chain, i);
        MethodsOfAppend(cp, chain, InterfacesOfAll(cp, chain));
        MethodsOfMember(cp, InterfacesOfAll(cp, chain), m);
        assert m in MethodsOf(cp, front);
      }
    }
  }

  lemma {:induction false} MethodsOfAppend(cp: ClassPath, xs: seq<ClassName>, ys: seq<ClassName>)
    ensures MethodsOf(cp, xs + ys) == MethodsOf(cp, xs) + MethodsOf(cp, ys)
  {
    if xs == [] {
      assert xs + ys == ys;
    } else {
      assert (xs + ys)[0] == xs[0];
      assert (xs + ys)[1..] == xs[1..] + ys;
      MethodsOfAppend(cp, xs[1..], ys);
    }
  }

  /** The first match in a concatenation comes from the front part when that has one. */
  lemma {:induction false} FirstAnnotationAppend(xs: seq<MethodInfo>, ys: seq<MethodInfo>, target: MethodInfo, a: ClassName)
    ensures FirstAnnotation(xs + ys, target, a) ==
              if FirstAnnotation(xs, target, a).Some? then FirstAnnotation(xs, target, a)
              else FirstAnnotation(ys, target, a)
  {
    if xs == [] {
      assert xs + ys == ys;
    } else {
      assert (xs + ys)[0] == xs[0];
      assert (xs + ys)[1..] == xs[1..] + ys;
      FirstAnnotationAppend(xs[1..], ys, target, a);
    }
  }

  /**
   * Search order: when a superclass or the declaring class has a matching
   * method carrying the annotation, the result comes from those classes
   * alone and no interface is consulted.
   */
  lemma ClassesBeforeInterfaces(cp: ClassPath, target: MethodInfo, a: ClassName)
    requires FirstAnnotation(MethodsOf(cp, ClassChain(cp, target.declaringClass)), target, a).Some?
    ensures FindAnnotation(cp, target, a) ==
              FirstAnnotation(MethodsOf(cp, ClassChain(cp, target.declaringClass)), target, a)
  {
    var d := target.declaringClass;
    var chain := ClassChain(cp, d);
    var rest := InterfacesOfAll(cp, chain) + Interfaces(cp, d);
    assert SearchOrder(cp, d) == chain + rest;
    MethodsOfAppend(cp, chain, rest);
    FirstAnnotationAppend(MethodsOf(cp, chain), MethodsOf(cp, rest), target, a);
  }

  /**
   * A matching annotated method in a superclass wins over the method's own
   * annotation: superclasses are searched before the declaring class.
   */
  lemma SuperclassesBeforeDeclaringClass(cp: ClassPath, target: MethodInfo, a: ClassName)
    requires FirstAnnotation(MethodsOf(cp, Superclasses(cp, target.declaringClass)), target, a).Some?
    ensures FindAnnotation(cp, target, a) ==
              FirstAnnotation(MethodsOf(cp, Superclasses(cp, target.declaringClass)), target, a)
  {
    var d := target.declaringClass;
    var supers := Superclasses(cp, d);
    MethodsOfAppend(cp, supers, [d]);
    FirstAnnotationAppend(MethodsOf(cp, supers), MethodsOf(cp, [d]), target, a);
    ClassesBeforeInterfaces(cp, target, a);
  }

  /**
   * When no superclass, no declaring class and none of their interfaces has a
   * matching annotated method, the search finds nothing.
   */
  lemma NothingFound(cp: ClassPath, target: MethodInfo, a: ClassName)
    requires forall m :: m in MethodsOf(cp, SearchOrder(cp, target.declaringClass)) ==> !Carries(m, target, a)
    ensures FindAnnotation(cp, target, a) == None
  {
  }

  // ---------------------------------------------------------------------------
  // The JSON name of a getter

  const GetterPrefix := "get"
  const JsonPropertyType: ClassName := "com.fasterxml.jackson.annotation.JsonProperty"

  /**
   * `jsonName()`: a non-empty `@JsonProperty` value found by the annotation
   * search; otherwise the method name with one leading "get" removed (case
   * kept); otherwise the method name itself.
   */
  function JsonName(cp: ClassPath, getter: MethodInfo): (r: string)
    ensures var a := FindAnnotation(cp, getter, JsonPropertyType);
            if a.Some? && a.value.value != "" then r == a.value.value
            else if GetterPrefix <= getter.name then GetterPrefix + r == getter.name
            else r == getter.name
  {
    var a := FindAnnotation(cp, getter, JsonPropertyType);
    if a.None? || a.value.value == "" then
      if GetterPrefix <= getter.name then getter.name[|GetterPrefix|..] else getter.name
    else
      a.value.value
  }

  /** A method with the given name and nothing to search. */
  function Bare(name: string): MethodInfo
  {
    MethodInfo(name, [], "Bean", map[])
  }

  /** Without an annotation: "getName" gives "Name", "get" gives "", "getget" gives "get", "name" stays. */
  lemma JsonNameExamples()
    ensures JsonName(map[], Bare("getName")) == "Name"
    ensures JsonName(map[], Bare("get")) == ""
    ensures JsonName(map[], Bare("getget")) == "get"
    ensures JsonName(map[], Bare("name")) == "name"
  {
    assert SearchOrder(map[], "Bean") == ["Bean"];
    assert "name"[0] != GetterPrefix[0];
  }

  // ---------------------------------------------------------------------------
  // The superclass's generic parameter

  /** The last position of `c` in `s`, if any. */
  function LastIndexOf(s: string, c: char): (r: Option<nat>)
    ensures r.None? <==> forall k :: 0 <= k < |s| ==> s[k] != c
    ensures r.Some? ==> r.value < |s| && s[r.value] == c && forall k :: r.value < k < |s| ==> s[k] != c
  {
    if s == [] then None
    else if s[|s| - 1] == c then Some(|s| - 1)
    else LastIndexOf(s[..|s| - 1], c)
  }

  /** The last occurrence is determined by its position: a `c` with none after it. */
  lemma LastIndexOfAt(s: string, c: char, i: nat)
    requires i < |s| && s[i] == c
    requires forall k :: i < k < |s| ==> s[k] != c
    ensures LastIndexOf(s, c) == Some(i)
  {
  }

  /** `s[p]` is a '<' and `s[j]` a later '>': one way `.*<(.*)>` can match. */
  ghost predicate Candidate(s: string, p: int, j: int)
  {
    0 <= p < j < |s| && s[p] == '<' && s[j] == '>'
  }

  /**
   * The match a backtracking engine reports for `.*<(.*)>`: the greedy `.*`
   * takes the latest '<' it can, then the greedy group the latest '>'.
   */
  ghost predicate GreedyMatch(s: string, p: int, j: int)
  {
    Candidate(s, p, j) &&
    forall p', j' :: Candidate(s, p', j') ==> p' < p || (p' == p && j' <= j)
  }

  /**
   * The positions of the '<' and '>' around the captured group: the last '>'
   * and the last '<' before it; none when no '<' has a '>' after it.
   */
  function GenericMatch(s: string): (r: Option<(nat, nat)>)
    ensures r.None? <==> forall p, j :: !Candidate(s, p, j)
    ensures r.Some? ==>
              Candidate(s, r.value.0, r.value.1) &&
              (forall k :: r.value.1 < k < |s| ==> s[k] != '>') &&
              (forall k :: r.value.0 < k < r.value.1 ==> s[k] != '<')
  {
    match LastIndexOf(s, '>')
    case None => None
    case Some(j) =>
      match LastIndexOf(s[..j], '<')
      case None => None
      case Some(p) =>
        assert s[..j][p] == s[p];
        assert Candidate(s, p, j);
        Some((p, j))
  }

  /**
   * `matcher.find()` then `group(1)`: no match exactly when no '<' has a '>'
   * after it; otherwise the text between the greedy match's '<' and '>',
   * which holds no '<'.
   */
  function GenericParameter(typeName: string): (r: Option<string>)
    ensures r.None? <==> forall p, j :: !Candidate(typeName, p, j)
    ensures r.Some? ==> exists p, j :: GreedyMatch(typeName, p, j) && r.value == typeName[p + 1..j]
    ensures r.Some? ==> forall k :: 0 <= k < |r.value| ==> r.value[k] != '<'
  {
    GenericMatchIsGreedy(typeName);
    match GenericMatch(typeName)
    case None => None
    case Some((p, j)) => Some(typeName[p + 1..j])
  }

  /**
   * `GenericMatch` finds exactly the greedy match: nothing when no '<' has a
   * '>' after it, and otherwise the one pair the greedy pattern selects.
   */
  lemma GenericMatchIsGreedy(s: string)
    ensures GenericMatch(s).None? <==> forall p, j :: !Candidate(s, p, j)
    ensures forall p, j :: GreedyMatch(s, p, j) ==> GenericMatch(s) == Some((p, j))
    ensures GenericMatch(s).Some? ==> GreedyMatch(s, GenericMatch(s).value.0, GenericMatch(s).value.1)
  {
    match LastIndexOf(s, '>') {
    case None =>
    case Some(j) =>
      var front := s[..j];
      assert forall k :: 0 <= k < j ==> front[k] == s[k];
      match LastIndexOf(front, '<') {
      case None =>
      case Some(p) =>
        assert Candidate(s, p, j);
        forall p', j' | Candidate(s, p', j') ensures p' < p || (p' == p && j' <= j) {
          assert j' <= j;
          assert front[p'] == '<';
        }
        assert GreedyMatch(s, p, j);
      }
    }
  }

  /**
   * `Class.toString()`: "interface X", "class X", or the bare name of a
   * primitive; it always ends with the name, and is the bare name exactly for
   * a primitive.
   */
  function ClassToString(c: ClassInfo): (r: string)
    ensures |r| >= |c.name| && r[|r| - |c.name|..] == c.name
    ensures r == c.name <==> !c.isInterface && c.isPrimitive
  {
    (if c.isInterface then "interface " else if c.isPrimitive then "" else "class ") + c.name
  }

  /**
   * `extractSuperclassGenericParameter()` on class `c`: a class without a
   * superclass throws NullPointerException; a superclass name that the
   * pattern does not match throws "Unsupported super class: ..."; a captured
   * name that cannot be loaded throws "Unknown class: ..."; otherwise the loaded
   * class.
   */
  function ExtractSuperclassGenericParameter(cp: ClassPath, c: ClassInfo): (r: Result<ClassInfo>)
    ensures c.genericSuperclass.None? ==> r == Failure(NullPointer)
    ensures c.genericSuperclass.Some? && GenericParameter(c.genericSuperclass.value).None? ==>
              r == Failure(Runtime("Unsupported super class: " + ClassToString(c)))
    ensures c.genericSuperclass.Some? && GenericParameter(c.genericSuperclass.value).Some? ==>
              var name := GenericParameter(c.genericSuperclass.value).value;
              if name in cp then r == Success(cp[name]) else r == Failure(Runtime("Unknown class: " + name))
  {
    match c.genericSuperclass
    case None => Failure(NullPointer)
    case Some(typeName) =>
      match GenericParameter(typeName)
      case None => Failure(Runtime("Unsupported super class: " + ClassToString(c)))
      case Some(name) =>
        if name in cp then Success(cp[name]) else Failure(Runtime("Unknown class: " + name))
  }

  /**
   * The captured group of a name that ends in '>': everything after the last
   * '<' up to that final '>', whatever else the name holds before the '<'.
   */
  lemma GenericParameterOfShape(pre: string, group: string)
    requires forall k :: 0 <= k < |group| ==> group[k] != '<'
    ensures GenericParameter(pre + "<" + group + ">") == Some(group)
  {
    var s := pre + "<" + group + ">";
    var j := |s| - 1;
    LastIndexOfAt(s, '>', j);
    var front := s[..j];
    assert front == pre + "<" + group;
    assert forall k :: |pre| < k < |front| ==> front[k] == group[k - |pre| - 1];
    LastIndexOfAt(front, '<', |pre|);
    assert s[|pre| + 1..j] == group;
  }

  /**
   * A nested parameter: the greedy pattern starts after the innermost '<' and
   * keeps the inner '>', so for `Base<List<String>>` the captured text is
   * `String>`, which names no class.
   */
  lemma GenericParameterNested(pre: string, outer: string, inner: string)
    requires forall k :: 0 <= k < |inner| ==> inner[k] != '<'
    ensures GenericParameter(pre + "<" + outer + "<" + inner + ">" + ">") == Some(inner + ">")
  {
    var group := inner + ">";
    forall k | 0 <= k < |group| ensures group[k] != '<' {
      if k < |inner| {
        assert group[k] == inner[k];
      }
    }
    GenericParameterOfShape(pre + "<" + outer, group);
    assert pre + "<" + outer + "<" + group + ">" == pre + "<" + outer + "<" + inner + ">" + ">";
  }

  /**
   * Two parameters come out together: for `Pair<A, B>` the captured text is
   * `A, B`, which names no class.
   */
  lemma GenericParameterPair(pre: string, first: string, second: string)
    requires forall k :: 0 <= k < |first| ==> first[k] != '<'
    requires forall k :: 0 <= k < |second| ==> second[k] != '<'
    ensures GenericParameter(pre + "<" + first + ", " + second + ">") == Some(first + ", " + second)
  {
    var group := first + ", " + second;
    forall k | 0 <= k < |group| ensures group[k] != '<' {
      if k < |first| {
        assert group[k] == first[k];
      } else if k >= |first| + 2 {
        assert group[k] == second[k - |first| - 2];
      }
    }
    GenericParameterOfShape(pre, group);
    assert pre + "<" + group + ">" == pre + "<" + first + ", " + second + ">";
  }

  /** A superclass name without a '>' (a class without type arguments) does not match. */
  lemma GenericParameterPlain(typeName: string)
    requires forall k :: 0 <= k < |typeName| ==> typeName[k] != '>'
    ensures GenericParameter(typeName) == None
  {
  }
}
