/**
 * The request-parameter validator (src/Helper.php): presence of a key, the
 * primitive type of its value, and optionally membership of the value in a list
 * of allowed values. Each check passes or reports the first failure; PHP throws
 * an exception where this model returns `Fail`.
 */
module Helper {
  import opened Values

  /** The declared type of a parameter (the constants of `ParamType`). */
  datatype ParamType = String | Integer | Timestamp | StringsArray

  /** Why a parameter was rejected, naming the offending key. */
  datatype ValidationError =
    | Missing(key: string)
    | WrongType(key: string, expected: ParamType)
    | NotAllowed(key: string, allowed: seq<Value>)

  /** The outcome of one validator call: it returns normally, or it throws. */
  datatype Check = Pass | Fail(error: ValidationError) {
    predicate IsFailure() {
      Fail?
    }

    /**
     * Total, so that a chain may hold checks that can never fail (a type that
     * `checkType` does not discriminate). `:-` only calls it on `Fail`, so the
     * `Pass` branch is never reached and models no error of the validator.
     */
    function PropagateFailure<U>(): Result<U, ValidationError> {
      match this
      case Fail(e) => Err(e)
      case Pass => Err(Missing(""))
    }
  }

  /** `$params[$key]`: PHP reads an absent index as null. */
  function Lookup(params: Params, key: string): (v: Value)
    ensures key in params ==> v == params[key]
    ensures key !in params ==> v == VNull
  {
    if key in params then params[key] else VNull
  }

  /**
   * `checkType`: a switch over the declared type with a case for strings and a
   * case for integers and no default, so every other type accepts any value.
   */
  function CheckType(params: Params, key: string, expected: ParamType): (r: Check)
    ensures expected == String ==> (r.Pass? <==> Lookup(params, key).VStr?)
    ensures expected == Integer ==> (r.Pass? <==> Lookup(params, key).VInt?)
    ensures expected != String && expected != Integer ==> r.Pass?
    ensures r.Fail? ==> r.error == WrongType(key, expected)
  {
    match expected
    case String =>
      if Lookup(params, key).VStr? then Pass else Fail(WrongType(key, String))
    case Integer =>
      if Lookup(params, key).VInt? then Pass else Fail(WrongType(key, Integer))
    case _ => Pass
  }

  /** `in_array($needle, $haystack, true)`: a linear scan under strict comparison. */
  function InArrayStrict(needle: Value, haystack: seq<Value>): (found: bool)
    ensures found <==> needle in haystack
  {
    if haystack == [] then false
    else haystack[0] == needle || InArrayStrict(needle, haystack[1..])
  }

  /** `strictValues`: the value must be one of `allowed`, compared strictly. */
  function StrictValues(params: Params, key: string, allowed: seq<Value>): (r: Check)
    ensures r.Pass? <==> Lookup(params, key) in allowed
    ensures r.Fail? ==> r.error == NotAllowed(key, allowed)
  {
    if InArrayStrict(Lookup(params, key), allowed) then Pass
    else Fail(NotAllowed(key, allowed))
  }

  /**
   * The refinement callback. Every callback the API passes is a `strictValues`
   * call over a fixed list, so a callback is that list, or `None` for no callback.
   */
  function RunCallback(params: Params, key: string, callback: Option<seq<Value>>): (r: Check)
    ensures r.Pass? <==> callback.None? || Lookup(params, key) in callback.value
    ensures r.Fail? ==> callback.Some? && r.error == NotAllowed(key, callback.value)
  {
    match callback
    case None => Pass
    case Some(allowed) => StrictValues(params, key, allowed)
  }

  /** `requiredParam`: presence, then the type check, then the callback. */
  function RequiredParam(params: Params, key: string, expected: ParamType,
                         callback: Option<seq<Value>>): (r: Check)
    ensures r == Fail(Missing(key)) <==> key !in params
    ensures r.Fail? ==> r.error.key == key
    ensures r.Pass? ==> key in params
    ensures r.Pass? && expected == String ==> params[key].VStr?
    ensures r.Pass? && expected == Integer ==> params[key].VInt?
    ensures r.Pass? && callback.Some? ==> params[key] in callback.value
    ensures (key in params && CheckType(params, key, expected).Pass?
              && (callback.Some? ==> params[key] in callback.value)) ==> r.Pass?
    // the callback only runs once presence and type have passed
    ensures key in params && CheckType(params, key, expected).Fail? ==>
              r == Fail(WrongType(key, expected))
    ensures (key in params && CheckType(params, key, expected).Pass? && callback.Some?
              && params[key] !in callback.value) ==> r == Fail(NotAllowed(key, callback.value))
    ensures r.Fail? && r.error.NotAllowed? ==>
              key in params && CheckType(params, key, expected).Pass?
  {
    if key !in params then Fail(Missing(key))
    else
      var typed := CheckType(params, key, expected);
      if typed.Fail? then typed else RunCallback(params, key, callback)
  }

  /** `optionalParam`: an absent key passes at once; a present one is checked as if required. */
  function OptionalParam(params: Params, key: string, expected: ParamType,
                         callback: Option<seq<Value>>): (r: Check)
    ensures key !in params ==> r.Pass?
    ensures key in params ==> r == RequiredParam(params, key, expected, callback)
    ensures r.Fail? ==> key in params && r.error.key == key && !r.error.Missing?
  {
    if key !in params then Pass
    else
      var typed := CheckType(params, key, expected);
      if typed.Fail? then typed else RunCallback(params, key, callback)
  }
}
