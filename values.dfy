/** The values a caller puts into a request's parameter array, as PHP sees them. */
module Values {

  /** Absent or present, as in the optional callback of the validator. */
  datatype Option<+T> = None | Some(value: T)

  /** A successful value or an error; failure-compatible so that `:-` propagates the error. */
  datatype Result<+T, +E> = Ok(value: T) | Err(error: E) {
    predicate IsFailure() {
      Err?
    }

    function PropagateFailure<U>(): Result<U, E>
      requires Err?
    {
      Err(error)
    }

    function Extract(): T
      requires Ok?
    {
      value
    }
  }

  /** A key of a PHP array: an integer or a string. */
  datatype ArrayKey = IntKey(i: int) | StrKey(s: string)

  /**
   * A PHP scalar, null or array (objects and resources are not modelled). `VArray` keeps the entries in insertion order, so that datatype
   * equality coincides with PHP's strict comparison `===` (same pairs, same order,
   * same types).
   */
  datatype Value =
    | VNull
    | VBool(b: bool)
    | VInt(i: int)
    | VFloat(f: real)
    | VStr(s: string)
    | VArray(entries: seq<(ArrayKey, Value)>)

  /** The parameter array handed to one API call: field name to value. */
  type Params = map<string, Value>
}
