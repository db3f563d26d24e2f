/** The wrappers the converter and the density engine return. The source
    signals failure by raising `ValueError`; the model returns a `Failure`
    that describes the error instead. */
module Results {

  /** A value that may be absent. */
  datatype Option<+T> = None | Some(value: T)

  /** Either a computed value or the error that stopped the computation. */
  datatype Result<+T, +E> = Success(value: T) | Failure(error: E)
}
