/**
 * The null-policy dispatcher that every fluent builder of the library
 * inherits (GenericBuilder.java).
 *
 * In the source the setter is a side-effecting `Consumer` and the builder
 * returns `this`. Here the dispatcher returns WHICH call the setter receives
 * (`Called(arg)`), that it is not called, or that the dispatcher throws; every
 * caller then performs the setter's effect on its own state and returns itself.
 */
module GenericBuilder {
  import opened Wrappers

  /** What to do when the value handed to `setAndReturnThis` is null. */
  datatype NullValueMode = Accept | Throw | Skip

  /** What happens to the setter during one `setAndReturnThis` call. */
  datatype SetterCall<T> = Called(arg: Option<T>) | NotCalled | Threw(error: Exception)

  /**
   * `setAndReturnThis(value, setter, nullMode)`. `hasSetter` is false when the
   * setter is null. A non-null value reaches the setter exactly once whatever
   * the mode; a null value reaches it only under `Accept`, throws under
   * `Throw` and is dropped under `Skip`; a null setter makes the whole call a
   * no-op, even for a null value under `Throw`.
   */
  method SetAndReturnThis<T>(value: Option<T>, hasSetter: bool, nullMode: NullValueMode)
    returns (r: SetterCall<T>)
    ensures !hasSetter ==> r == NotCalled
    ensures hasSetter && value.Some? ==> r == Called(value)
    ensures hasSetter && value.None? ==>
              r == match nullMode
                   case Accept => Called(None)
                   case Throw => Threw(IllegalArgument("value"))
                   case Skip => NotCalled
  {
    r := NotCalled;
    if hasSetter {
      var doSet := true;
      if value.None? {
        match nullMode
        case Throw =>
          return Threw(IllegalArgument("value"));
        case Skip =>
          doSet := false;
        case Accept =>
      }
      if doSet {
        r := Called(value);
      }
    }
  }

  /**
   * The two-argument overload `setAndReturnThis(value, setter)`, which uses
   * `Skip`: it never throws, and the setter runs exactly when both the setter
   * and the value are non-null.
   */
  method SetAndReturnThisSkipping<T>(value: Option<T>, hasSetter: bool) returns (r: SetterCall<T>)
    ensures !r.Threw?
    ensures r.Called? <==> hasSetter && value.Some?
    ensures r.Called? ==> r.arg == value
  {
    r := SetAndReturnThis(value, hasSetter, Skip);
  }

  /**
   * `runAndReturnThis(action)`: the action runs exactly when it is non-null;
   * the builder is returned either way. `ran` says whether it ran.
   */
  method RunAndReturnThis(hasAction: bool) returns (ran: bool)
    ensures ran <==> hasAction
  {
    ran := false;
    if hasAction {
      ran := true;
    }
  }
}
