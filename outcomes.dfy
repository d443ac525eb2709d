/** What a call of the modelled Python code comes to: a value, or the exception it raises. */
module Outcomes {

  /** The exceptions the modelled code raises. */
  datatype Error =
    | ZeroDivision     // ZeroDivisionError: a `/` whose divisor is zero
    | AssertionFailed  // AssertionError: an `assert` statement whose condition is false
    | ValueError       // an explicit `raise ValueError(...)`
    | TypeError        // a call whose arguments do not fit the callee's signature

  datatype Result<+T> = Ok(value: T) | Err(error: Error)

  /** A keyword argument that may be left at its default `None`. */
  datatype Option<+T> = None | Some(value: T)

  /** The larger of two integers. */
  function Max(a: int, b: int): (r: int)
    ensures r >= a && r >= b && (r == a || r == b)
  {
    if a < b then b else a
  }
}
