/**
 * ThreadLocalScope.java: one optional value per thread, optionally filled on
 * demand by a default factory, and removed by `close`. The `ThreadLocal` is a
 * map from the calling thread's identity to its value (no key = null); every
 * operation takes the calling thread and touches only that thread's key.
 */
module Threading {
  import opened Wrappers
  import opened GenericBuilder

  /** The identity of the thread that makes a call. */
  type ThreadId = nat

  class ThreadLocalScope<T> {
    /** The default factory; `None` when the scope was built without one. */
    const defaultFactory: Option<Supplier<T>>
    /** The `ThreadLocal`: each thread's value. */
    var slots: map<ThreadId, T>
    /** How many times the default factory has been called, from any thread. */
    var factoryCalls: nat

    /** `new ThreadLocalScope<>()`: no default factory, every slot empty. */
    constructor ()
      ensures defaultFactory == None && slots == map[] && factoryCalls == 0
    {
      defaultFactory := None;
      slots := map[];
      factoryCalls := 0;
    }

    /** `new ThreadLocalScope<>(defaultFactory)`; the factory may be null. */
    constructor WithDefault(defaultFactory: Option<Supplier<T>>)
      ensures this.defaultFactory == defaultFactory && slots == map[] && factoryCalls == 0
    {
      this.defaultFactory := defaultFactory;
      slots := map[];
      factoryCalls := 0;
    }

    /** `getRaw()`: the calling thread's value, or null; the factory is never used. */
    function GetRaw(tid: ThreadId): (r: Option<T>)
      reads this
      ensures r.Some? <==> tid in slots
      ensures r.Some? ==> r.value == slots[tid]
    {
      if tid in slots then Some(slots[tid]) else None
    }

    /**
     * `initialize(value)`: a non-null value becomes the calling thread's value;
     * a null value changes nothing (the two-argument `setAndReturnThis`, so
     * `Skip`). Returns the scope itself.
     */
    method Initialize(tid: ThreadId, value: Option<T>) returns (r: ThreadLocalScope<T>)
      modifies this
      ensures r == this && factoryCalls == old(factoryCalls)
      ensures value.Some? ==> slots == old(slots)[tid := value.value]
      ensures value.None? ==> slots == old(slots)
      ensures forall t :: t != tid ==> GetRaw(t) == old(GetRaw(t))
    {
      var call := SetAndReturnThisSkipping(value, true);
      if call.Called? {
        slots := slots[tid := call.arg.value];
      }
      r := this;
    }

    /**
     * `get()`: a stored value is returned as it is. On an empty slot the default
     * factory, if there is one, is called once and its product is stored and
     * returned (a null product leaves the slot empty); an exception from the
     * factory passes through and stores nothing. Without a factory the result
     * is null and the slot stays empty.
     */
    method Get(tid: ThreadId) returns (r: Result<Option<T>>)
      modifies this
      ensures old(GetRaw(tid)).Some? ==>
                r == Success(old(GetRaw(tid))) && slots == old(slots) && factoryCalls == old(factoryCalls)
      ensures old(GetRaw(tid)).None? && defaultFactory.None? ==>
                r == Success(None) && slots == old(slots) && factoryCalls == old(factoryCalls)
      ensures old(GetRaw(tid)).None? && defaultFactory.Some? ==>
                r == defaultFactory.value(old(factoryCalls)) && factoryCalls == old(factoryCalls) + 1 &&
                (r.Success? ==> GetRaw(tid) == r.value) && (r.Failure? ==> slots == old(slots))
      ensures forall t :: t != tid ==> GetRaw(t) == old(GetRaw(t))
    {
      var result := GetRaw(tid);
      r := Success(result);
      if result.None? && defaultFactory.Some? {
        r := defaultFactory.value(factoryCalls);
        factoryCalls := factoryCalls + 1;
        if r.Success? {
          // ThreadLocal.set(null) leaves get() answering null, as an absent key does.
          slots := if r.value.Some? then slots[tid := r.value.value] else slots - {tid};
        }
      }
    }

    /** `close()`: removes the calling thread's value and nobody else's. */
    method Close(tid: ThreadId)
      modifies this
      ensures slots == old(slots) - {tid} && factoryCalls == old(factoryCalls)
      ensures GetRaw(tid) == None
      ensures forall t :: t != tid ==> GetRaw(t) == old(GetRaw(t))
    {
      slots := slots - {tid};
    }
  }
}
