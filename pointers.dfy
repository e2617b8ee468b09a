/** Raw pointer values and failure results shared by every handle model. */
module Pointers {

  /** A raw pointer: null, or the address of some object. Addresses are
      abstract; only their identity matters to the ownership models. */
  datatype Ptr = Null | At(addr: nat)

  /** The value an operation produces, or the error it signals instead
      (a C++ exception). */
  datatype Result<+T, +E> = Ok(value: T) | Err(error: E)

  /** `n` copies of `x`, as a run of one repeated operation. */
  function Repeat<T>(x: T, n: nat): (xs: seq<T>)
    ensures |xs| == n && forall i :: 0 <= i < n ==> xs[i] == x
  {
    if n == 0 then [] else [x] + Repeat(x, n - 1)
  }
}
