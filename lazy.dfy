/**
 * The one-slot lazy cache of Lazy.java, run sequentially: the volatile field
 * and the double-checked lock only make the same steps safe between threads.
 */
module LazyInit {
  import opened Wrappers

  const InvalidFactoryMessage := "Invalid factory instance. Factory should never produce NULL!"

  class Lazy<T> {
    /** The factory; the outcome of its k-th call is `factory(k)`. */
    const factory: Supplier<T>
    /** The cached instance; `None` while the slot is empty. */
    var instance: Option<T>
    /** How many times the factory has been called so far. */
    var calls: nat

    /** A cached instance is always what the most recent factory call produced. */
    ghost predicate Valid()
      reads this
    {
      instance.Some? ==> calls > 0 && factory(calls - 1) == Success(instance)
    }

    /** The constructor once the null check has passed: the slot starts empty. */
    constructor (factory: Supplier<T>)
      ensures Valid()
      ensures this.factory == factory && instance == None && calls == 0
    {
      this.factory := factory;
      instance := None;
      calls := 0;
    }

    /** `isInitialized()`: the slot holds an instance. */
    function IsInitialized(): (b: bool)
      reads this
      ensures b <==> instance.Some?
    {
      instance != None
    }

    /**
     * `get()`: a filled slot is returned without calling the factory; an empty
     * slot calls the factory once and caches what it produces. A null product
     * leaves the slot empty and throws, so a successful `get` never yields null;
     * an exception from the factory passes through and also leaves it empty.
     */
    method Get() returns (r: Result<T>)
      requires Valid()
      modifies this
      ensures Valid()
      ensures old(instance).Some? ==>
                r == Success(old(instance).value) && instance == old(instance) && calls == old(calls)
      ensures old(instance).None? ==>
                calls == old(calls) + 1 &&
                match factory(old(calls))
                case Failure(e) => r == Failure(e) && instance == None
                case Success(None) => r == Failure(Runtime(InvalidFactoryMessage)) && instance == None
                case Success(Some(v)) => r == Success(v) && instance == Some(v)
    {
      if instance.None? {
        var produced := factory(calls);
        calls := calls + 1;
        if produced.Failure? {
          return Failure(produced.error);
        }
        instance := produced.value;
        if instance.None? {
          return Failure(Runtime(InvalidFactoryMessage));
        }
      }
      r := Success(instance.value);
    }

    /** `reset()`: empties the slot, so the next `get` calls the factory again. */
    method Reset()
      requires Valid()
      modifies this
      ensures Valid()
      ensures instance == None && calls == old(calls)
    {
      instance := None;
    }
  }

  /**
   * `new Lazy<>(factory)`: a null factory throws IllegalArgumentException; any
   * other factory gives a fresh, uninitialized cache that has not called it.
   */
  method NewLazy<T>(factory: Option<Supplier<T>>) returns (r: Result<Lazy<T>>)
    ensures factory.None? ==> r == Failure(IllegalArgument("factory"))
    ensures factory.Some? ==>
              r.Success? && fresh(r.value) && r.value.Valid() &&
              r.value.factory == factory.value && !r.value.IsInitialized() && r.value.calls == 0
  {
    if factory.None? {
      return Failure(IllegalArgument("factory"));
    }
    var l := new Lazy(factory.value);
    r := Success(l);
  }

  /**
   * Two `get` calls in a row: the factory runs at most once, and when the first
   * call succeeds the second returns the very same instance.
   */
  method GetTwice<T>(l: Lazy<T>) returns (first: Result<T>, second: Result<T>)
    requires l.Valid()
    modifies l
    ensures l.Valid()
    ensures l.calls <= old(l.calls) + 2
    ensures first.Success? ==> second == first && l.calls <= old(l.calls) + 1
    ensures old(l.instance).Some? ==> first == second == Success(old(l.instance).value) && l.calls == old(l.calls)
  {
    first := l.Get();
    second := l.Get();
  }

  /** After `reset` the next `get` calls the factory again. */
  method ResetThenGet<T>(l: Lazy<T>) returns (r: Result<T>)
    requires l.Valid()
    modifies l
    ensures l.Valid()
    ensures l.calls == old(l.calls) + 1
    ensures r.Success? <==> l.factory(old(l.calls)).Success? && l.factory(old(l.calls)).value.Some?
    ensures r.Success? ==> l.IsInitialized() && l.instance == Some(r.value) && l.factory(old(l.calls)) == Success(Some(r.value))
    ensures r.Failure? ==> !l.IsInitialized()
  {
    l.Reset();
    r := l.Get();
  }
}
