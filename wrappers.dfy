/** Optional values and error-carrying results shared by every module of the model. */
module Wrappers {

  /** A value that may be missing (`null`/`undefined` in the modelled program). */
  datatype Option<+T> = None | Some(value: T)

  /** The outcome of an operation that may throw: `Err` carries the message of the thrown error. */
  datatype Result<+T, +E> = Ok(value: T) | Err(error: E)

  /** A list that may be missing, read with the empty list as default (`list || []`, and
      `data ? JSON.parse(data) : []`). */
  function OrEmpty<T>(list: Option<seq<T>>): (r: seq<T>)
    ensures list.None? ==> r == []
    ensures list.Some? ==> r == list.value
  {
    match list
    case None => []
    case Some(s) => s
  }
}
