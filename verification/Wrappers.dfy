module Wrappers {
  datatype Option<+T> = None | Some(value: T)

  datatype Result<+T, +E> = Success(value: T) | Failure(error: E)

  /** Always true. A definition stated as `forall k :: Open(k) ==> ...` stays folded for the verifier until a
      proof asserts `Open(0)`. */
  predicate Open(k: int) { true }
}
