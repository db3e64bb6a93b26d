/**
  The part of a gin request context the middlewares and handlers touch: the
  per-request key/value store, the abort flag, whether the next handler was
  called, and the JSON response written.
*/
module Gin {
  import opened Wrappers

  /** A value stored with `ctx.Set`: a user record of the service's own type, or anything else. */
  datatype Value<U> = UserValue(user: U) | OtherValue(text: string)

  /** A JSON body {"message": ...} with its status. */
  datatype Written = Written(status: int, message: string)

  datatype CtxState<U> = CtxState(
    keys: map<string, Value<U>>,
    aborted: bool,
    nextCalled: bool,
    written: Option<Written>)

  class Context<U> {
    var keys: map<string, Value<U>>
    var aborted: bool
    var nextCalled: bool
    var written: Option<Written>

    function State(): CtxState<U>
      reads this
    {
      CtxState(keys, aborted, nextCalled, written)
    }

    constructor (keys: map<string, Value<U>>)
      ensures State() == CtxState(keys, false, false, None)
    {
      this.keys := keys;
      aborted := false;
      nextCalled := false;
      written := None;
    }

    /** `ctx.Get(key)`: the value and whether it exists. */
    function Get(key: string): (v: Option<Value<U>>)
      reads this
      ensures v.Some? <==> key in keys
      ensures v.Some? ==> v.value == keys[key]
    {
      if key in keys then Some(keys[key]) else None
    }

    /** `ctx.Set(key, value)`. */
    method Set(key: string, value: Value<U>)
      modifies this
      ensures State() == old(State()).(keys := old(keys)[key := value])
    {
      keys := keys[key := value];
    }

    /** `ctx.JSON(status, gin.H{"message": message})`. */
    method Json(status: int, message: string)
      modifies this
      ensures State() == old(State()).(written := Some(Written(status, message)))
    {
      written := Some(Written(status, message));
    }

    /** `ctx.Abort()`: no later handler in the chain runs. */
    method Abort()
      modifies this
      ensures State() == old(State()).(aborted := true)
    {
      aborted := true;
    }

    /** `ctx.Next()`: hands the request on to the next handler. */
    method Next()
      modifies this
      ensures State() == old(State()).(nextCalled := true)
    {
      nextCalled := true;
    }
  }
}
