/**
 * Result types shared by every module: an optional value, the Python
 * exception an operation raises, and a value-or-exception result.
 */
module Wrappers {

  datatype Option<T> = None | Some(value: T)

  /** The Python exceptions the modelled code can raise. */
  datatype PyError =
    | IndexError
    | KeyError
    | ValueError
    | ZeroDivisionError
    | OverflowError
    | UnboundLocalError

  /** A value, or the exception raised instead of producing it. */
  datatype Result<T> = Ok(value: T) | Err(error: PyError)

  /** Completion of a procedure that returns nothing useful. */
  datatype Outcome = Pass | Fail(error: PyError)

  /**
   * Python list subscription `xs[i]` for a list of length `len`: negative
   * indices count from the end; anything else out of range is an IndexError.
   */
  function PyIndex(len: nat, i: int): (r: Option<nat>)
    ensures r.Some? <==> -(len as int) <= i < len
    ensures r.Some? ==> r.value < len && (r.value == i || r.value == len + i)
  {
    if 0 <= i < len then Some(i)
    else if -(len as int) <= i < 0 then Some(len + i)
    else None
  }

  /** The first position holding `x`, or None: `list.index` with absence as None. */
  function FirstIndexOf<T(==)>(xs: seq<T>, x: T): (r: Option<nat>)
    ensures r.None? <==> x !in xs
    ensures r.Some? ==> r.value < |xs| && xs[r.value] == x
    ensures r.Some? ==> forall k :: 0 <= k < r.value ==> xs[k] != x
  {
    if xs == [] then None
    else if xs[0] == x then Some(0)
    else match FirstIndexOf(xs[1..], x)
      case None => None
      case Some(k) => Some(k + 1)
  }
}
