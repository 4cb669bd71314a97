/** Small value helpers shared by every component of the pattern pipeline. */
module Common {

  /** An optional value: a missing dictionary key, an unset handler, a region never hit. */
  datatype Option<+T> = None | Some(value: T) {

    /** The value if present, otherwise `default` (Python's `dict.get(key, default)`). */
    function GetOr(default: T): T {
      match this
      case Some(v) => v
      case None => default
    }
  }

  function MaxReal(a: real, b: real): real {
    if a >= b then a else b
  }

  function MinReal(a: real, b: real): real {
    if a <= b then a else b
  }

  function MaxInt(a: int, b: int): int {
    if a >= b then a else b
  }

  function AbsReal(x: real): real {
    if x < 0.0 then -x else x
  }

  function AbsInt(x: int): int {
    if x < 0 then -x else x
  }

  /** The last element of a non-empty sequence (Python's `xs[-1]`). */
  function Last<T>(xs: seq<T>): T
    requires |xs| > 0
  {
    xs[|xs| - 1]
  }
}
