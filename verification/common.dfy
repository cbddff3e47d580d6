/** Small shared vocabulary: optional values, results with an error channel,
    and the 64-bit width of Swift's `Int`. */
module Common {

  /** An argument or field that may be absent (Swift's `T?`). */
  datatype Option<+T> = None | Some(value: T)

  /** The outcome of a decode: a value, or the error that stopped it.
      Usable with `:-`, which models Swift's `try`. */
  datatype Result<+T, +E> = Success(value: T) | Failure(error: E) {

    predicate IsFailure() {
      Failure?
    }

    function PropagateFailure<U>(): Result<U, E>
      requires Failure?
    {
      Failure(error)
    }

    function Extract(): T
      requires Success?
    {
      value
    }
  }

  const Int64Min: int := -0x8000_0000_0000_0000
  const Int64Max: int :=  0x7FFF_FFFF_FFFF_FFFF

  /** Swift's `Int` on the 64-bit platforms the client targets. */
  type Int64 = i: int | Int64Min <= i <= Int64Max
}
