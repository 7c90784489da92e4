/** Option, Result and byte: the value types every other module shares. */
module Wrappers {

  datatype Option<+T> = None | Some(value: T) {

    /** SQL COALESCE of two nullable columns, `??` of two optional values. */
    function Or(other: Option<T>): Option<T> {
      if Some? then this else other
    }

    function GetOr(default: T): T {
      if Some? then value else default
    }
  }

  datatype Result<+T> = Success(value: T) | Failure(error: string)

  /** 2 ** n, for backoffs; a negative exponent counts as zero. */
  function Pow2(n: int): (p: nat)
    ensures 1 <= p
  {
    if n <= 0 then 1 else 2 * Pow2(n - 1)
  }

  type Byte = x: int | 0 <= x < 256
}
