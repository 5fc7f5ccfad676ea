/** The outcomes of the screen's requests, as the handlers see them. */
module Wrappers {

  /** A value that may be absent: the response body of a request that
      completed without data is `None`; an empty array is `Some([])`. */
  datatype Option<+T> = None | Some(value: T)

  /** The outcome of an awaited request: either it threw (the `catch`
      branch), or it returned a body that may be absent. */
  datatype Response<+T> = Threw | Returned(body: Option<T>)
}
