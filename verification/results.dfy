/** Wrappers shared by the model: Ruby's nil-or-value and raise-or-return. */
module Results {

  /** A value that may be Ruby's nil. */
  datatype Option<+T> = None | Some(value: T)

  /** Either a value or the error the Ruby code would raise. */
  datatype Result<+T, +E> = Success(value: T) | Failure(error: E)

  /** What an external call does: it raises, or it returns a value. */
  datatype Reply<+T> = Raises | Returns(value: T)
}
