/** Optional values and the outcome of a call that can throw. */
module Wrappers {

  /** Swift's `T?`. */
  datatype Option<+T> = None | Some(value: T)

  /** The outcome of a `try await`: the value, or the thrown error, which the
      model knows only by its `localizedDescription`. */
  datatype Result<+T> = Success(value: T) | Failure(error: string)
}
