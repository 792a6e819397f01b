/** Small value types shared by the model: Go's `(T, error)` pairs, a bare
    `error`, and lookups that may find nothing. */
module Results {

  /** A lookup that may find nothing (Go's `(string, error)` from a search
      whose error only means "not found"). */
  datatype Option<+T> = None | Some(value: T)

  /** A Go `error` value: `Ok` stands for `nil`, `Err` carries the error. */
  datatype Status = Ok | Err(msg: string)

  /** A Go `(T, error)` pair where exactly one side is meaningful. */
  datatype Result<+T> = Success(value: T) | Failure(error: string)
}
