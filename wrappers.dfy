/** Failure-carrying wrappers used across the model: the Python code signals
    "nothing" with None and failures with raised exceptions; both are values here. */
module Wrappers {

  datatype Option<T> = None | Some(value: T)

  /** `Err` carries the text of the exception the source would raise. */
  datatype Result<T> = Ok(value: T) | Err(error: string)

  function Min(a: int, b: int): int { if a <= b then a else b }
  function Max(a: int, b: int): int { if a >= b then a else b }
  function MinR(a: real, b: real): real { if a <= b then a else b }
  function MaxR(a: real, b: real): real { if a >= b then a else b }

  /** `2 ** n` */
  function Pow2(n: nat): (r: nat)
    ensures r >= 1
  {
    if n == 0 then 1 else 2 * Pow2(n - 1)
  }
}
